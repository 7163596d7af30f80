/** The documents printLongText lays out for the 48-column thermal printer:
    the customer receipt with its item table and the student stubs
    (backend/local-client/local-client.js:129-333). The agent
    fills them from sample data written into the script; here they are
    functions of that data. */
module Receipt {
  import opened JsText
  import opened Wrap

  // ESC/POS commands, as the characters a command Buffer becomes when it is
  // appended to a JavaScript string (every byte is below 0x80).
  const AlignCenter: string := ['\U{1B}', 'a', '\U{01}']
  const AlignLeft: string := ['\U{1B}', 'a', '\U{00}']
  const DoubleSizeOn: string := ['\U{1D}', '!', '\U{11}']
  const TripleSizeOn: string := ['\U{1D}', '!', '\U{22}']
  const DoubleSizeOff: string := ['\U{1D}', '!', '\U{00}']

  /** The rule of 48 dashes, and the divider line it makes. */
  const Dashes: string := Rule(48)
  const Divider: string := Dashes + "\n"
  const TableHeader: string := "Qty          Desc           Price         Amount\n"

  const ReceiptWidth := 48
  const DescWrap := 18
  const QtyDescWidth := 20
  const PriceWidth := 12
  const AmountWidth := 15
  const BlankPriceWidth := 14

  /** One line of the customer order; the price is in cents. */
  datatype OrderItem = OrderItem(qty: nat, desc: string, priceCents: nat)

  /** The receipt's header and footer fields. `tapCard` is declared by the
      agent but never printed. */
  datatype Transaction = Transaction(
    transactionNo: string, terminal: string, cashier: string, transDate: string,
    idNo: string, name: string, initialBalance: string, remainingBalance: string,
    total: string, tapCard: string, tendered: string, change: string)

  datatype Meal = Breakfast | Lunch | Dinner

  // ---------------------------------------------------------------------
  // The receipt's padText(labelText, value, totalLength)

  /** `labelText` followed by `value` right-aligned in what is left of
      `totalLength`; nothing is cut when the two do not fit. */
  function PadLabel(labelText: string, value: string, totalLength: int): (r: string)
    ensures |r| == |labelText| + Max(totalLength - |labelText|, |value|)
    ensures r[..|labelText|] == labelText && r[|r| - |value|..] == value
    ensures |labelText| + |value| <= totalLength ==> |r| == totalLength
    ensures |labelText| + |value| >= totalLength ==> r == labelText + value
  {
    labelText + PadStart(value, totalLength - |labelText|)
  }

  /** The padded line is the labelText, a run of blanks, and the value. */
  lemma PadLabelShape(labelText: string, value: string, totalLength: int)
    ensures PadLabel(labelText, value, totalLength)
         == labelText + Spaces(Max(0, totalLength - |labelText| - |value|)) + value
  {
    var gap := Spaces(Max(0, totalLength - |labelText| - |value|));
    if totalLength - |labelText| <= |value| {
      assert gap == [] && gap + value == value;
    }
    assert PadStart(value, totalLength - |labelText|) == gap + value;
    ConcatAssoc(labelText, gap, value);
  }

  // ---------------------------------------------------------------------
  // The receipt's item table

  function AmountCents(item: OrderItem): nat
  {
    item.qty * item.priceCents
  }

  /** The description as wrapText(desc, 18).split("\n") cuts it. */
  function DescLines(desc: string): seq<string>
  {
    Split(Wrapped(desc, DescWrap), '\n')
  }

  /** One table row, without its newline: the quantity with the description
      line right-aligned to column 20, then either the price and the amount
      (first row) or blanks (continuation rows). */
  function ItemRow(item: OrderItem, first: bool, line: string): (r: string)
    ensures |r| >= QtyDescWidth + (if first then PriceWidth else BlankPriceWidth) + AmountWidth
  {
    if first then
      PadLabel(NatToString(item.qty), line, QtyDescWidth)
      + PadStart(FormatCents(item.priceCents), PriceWidth)
      + PadStart(FormatCents(AmountCents(item)), AmountWidth)
    else
      PadLabel(NatToString(item.qty), line, QtyDescWidth)
      + PadStart("", BlankPriceWidth) + PadStart("", AmountWidth)
  }

  function ItemRows(item: OrderItem, lines: seq<string>): seq<string>
  {
    seq(|lines|, i requires 0 <= i < |lines| => ItemRow(item, i == 0, lines[i]))
  }

  /** The rows one item contributes, each ended by a newline. */
  function ItemBlock(item: OrderItem): string
  {
    Terminated(ItemRows(item, DescLines(item.desc)), '\n')
  }

  function ItemSection(items: seq<OrderItem>): string
  {
    if items == [] then [] else ItemSection(items[..|items| - 1]) + ItemBlock(items[|items| - 1])
  }

  /** The sum of quantity times price over the order. */
  function TotalCents(items: seq<OrderItem>): nat
  {
    if items == [] then 0 else TotalCents(items[..|items| - 1]) + AmountCents(items[|items| - 1])
  }

  // ---------------------------------------------------------------------
  // The whole receipt

  /** The eight labelled fields under the title. */
  function HeaderLines(t: Transaction): seq<string>
  {
    [ PadLabel("Transaction No.:", t.transactionNo, ReceiptWidth),
      PadLabel("Terminal:", t.terminal, ReceiptWidth),
      PadLabel("Cashier:", t.cashier, ReceiptWidth),
      PadLabel("Trans. Date:", t.transDate, ReceiptWidth),
      PadLabel("ID. No.:", t.idNo, ReceiptWidth),
      PadLabel("Name:", t.name, ReceiptWidth),
      PadLabel("Initial Balance:", t.initialBalance, ReceiptWidth),
      PadLabel("Remaining Balance:", t.remainingBalance, ReceiptWidth) ]
  }

  /** The "Tap Card:" line shows the terminal field, as the agent writes it. */
  function FooterLines(t: Transaction): (r: seq<string>)
    ensures |r| == 4 && EndsWith(r[1], t.terminal)
  {
    [ PadLabel("Total:", t.total, ReceiptWidth),
      PadLabel("Tap Card:", t.terminal, ReceiptWidth),
      PadLabel("Amount Tendered:", t.tendered, ReceiptWidth),
      PadLabel("Change:", t.change, ReceiptWidth) ]
  }

  function ReceiptHead(t: Transaction): string
  {
    AlignCenter + DoubleSizeOn + "DUALTECH\n" + "\n" + DoubleSizeOff + AlignLeft
    + Terminated(HeaderLines(t), '\n')
    + Divider + TableHeader + Divider
  }

  function ReceiptFoot(t: Transaction): string
  {
    Divider + Terminated(FooterLines(t), '\n') + Divider
    + "\n" + "\n" + AlignCenter
    + "This document is not valid\n" + "For claim of input tax\n"
  }

  function ReceiptDocument(t: Transaction, items: seq<OrderItem>): string
  {
    ReceiptHead(t) + ItemSection(items) + ReceiptFoot(t)
  }

  /** The receipt builder of printLongText: the header lines, the item
      table, the footer lines; it also returns the summed amounts. */
  method BuildReceipt(t: Transaction, items: seq<OrderItem>)
    returns (receiptText: string, totalAmount: nat)
    ensures receiptText == ReceiptDocument(t, items)
    ensures totalAmount == TotalCents(items)
  {
    var section;
    section, totalAmount := BuildItemSection(items);
    receiptText := ReceiptHead(t) + section + ReceiptFoot(t);
  }

  /** The item loop of printLongText: the rows of every item in turn, and
      totalAmount, the sum of quantity times price. */
  method BuildItemSection(items: seq<OrderItem>) returns (section: string, totalAmount: nat)
    ensures section == ItemSection(items)
    ensures totalAmount == TotalCents(items)
  {
    section := "";
    totalAmount := 0;
    assert items[..0] == [];
    assert section == ItemSection(items[..0]) && totalAmount == TotalCents(items[..0]);
    for n := 0 to |items|
      invariant section == ItemSection(items[..n])
      invariant totalAmount == TotalCents(items[..n])
    {
      var item := items[n];
      var amount := AmountCents(item);
      var block := BuildItemRows(item);
      SectionAppended(items, n);
      TotalAppended(items, n);
      totalAmount := totalAmount + amount;
      section := section + block;
    }
    assert items[..|items|] == items;
  }

  /** The body of the item loop: wrap the description at 18 columns and emit
      one row per line, the first with price and amount. */
  method BuildItemRows(item: OrderItem) returns (block: string)
    ensures block == ItemBlock(item)
  {
    var wrapped := WrapText(item.desc, DescWrap);
    var wrappedDesc := Split(wrapped, '\n');
    block := EmitItemRows(item, wrappedDesc);
  }

  /** The row loop over the wrapped lines: the quantity and the line, then
      price and amount on the first row and blanks on the others. */
  method EmitItemRows(item: OrderItem, wrappedDesc: seq<string>) returns (block: string)
    ensures block == Terminated(ItemRows(item, wrappedDesc), '\n')
  {
    ghost var rows := ItemRows(item, wrappedDesc);
    block := "";
    for i := 0 to |wrappedDesc|
      invariant block == Terminated(rows[..i], '\n')
    {
      var line := PadLabel(NatToString(item.qty), wrappedDesc[i], QtyDescWidth);
      if i == 0 {
        line := line + PadStart(FormatCents(item.priceCents), PriceWidth)
                + PadStart(FormatCents(AmountCents(item)), AmountWidth);
      } else {
        line := line + PadStart("", BlankPriceWidth) + PadStart("", AmountWidth);
      }
      RowAppended(rows, i, line, block);
      block := block + line + "\n";
    }
    assert rows[..|wrappedDesc|] == rows;
  }

  /** One more row appended by the inner loop of a builder. */
  lemma RowAppended(rows: seq<string>, i: nat, line: string, text: string)
    requires i < |rows| && rows[i] == line
    requires text == Terminated(rows[..i], '\n')
    ensures text + line + "\n" == Terminated(rows[..i + 1], '\n')
  {
    assert rows[..i + 1] == rows[..i] + [line];
    TerminatedSnoc(rows[..i], line, '\n');
  }

  /** One more item handled by the outer loop of BuildItemSection. */
  lemma SectionAppended(items: seq<OrderItem>, n: nat)
    requires n < |items|
    ensures ItemSection(items[..n + 1]) == ItemSection(items[..n]) + ItemBlock(items[n])
  {
    PrefixGrows(items, n);
  }

  lemma TotalAppended(items: seq<OrderItem>, n: nat)
    requires n < |items|
    ensures TotalCents(items[..n + 1]) == TotalCents(items[..n]) + AmountCents(items[n])
  {
    PrefixGrows(items, n);
  }

  lemma PrefixGrows<T>(s: seq<T>, n: nat)
    requires n < |s|
    ensures s[..n + 1][..n] == s[..n] && s[..n + 1][n] == s[n] && |s[..n + 1]| == n + 1
  {
  }

  // ---------------------------------------------------------------------
  // What the item table looks like

  /** The wrapped description lines are at most 18 wide, and together they
      keep every non-blank character of the description, in order. */
  lemma DescLinesFit(desc: string)
    ensures forall line | line in DescLines(desc) :: |line| <= DescWrap
    ensures NonWhitespace(Join(DescLines(desc), '\n')) == NonWhitespace(desc)
  {
    WrappedLinesFit(desc, DescWrap);
    JoinSplit(Wrapped(desc, DescWrap), '\n');
    WrappedKeepsNonWhitespace(desc, DescWrap);
  }

  /** A description that fits and has no line break is one row. */
  lemma ShortDescOneLine(desc: string)
    requires |desc| <= DescWrap && '\n' !in desc
    ensures DescLines(desc) == [desc]
  {
    SplitOfPiece(desc, '\n', 0);
    assert desc[0..] == desc;
  }

  lemma ItemRowAvoidsNewline(item: OrderItem, first: bool, line: string)
    requires '\n' !in line
    ensures '\n' !in ItemRow(item, first, line)
  {
    var qty := NatToString(item.qty);
    assert '\n' !in qty;
    PadStartAvoids(line, QtyDescWidth - |qty|, '\n');
    PadStartAvoids("", BlankPriceWidth, '\n');
    PadStartAvoids("", AmountWidth, '\n');
    FormatCentsAvoids(item.priceCents, '\n');
    FormatCentsAvoids(AmountCents(item), '\n');
    PadStartAvoids(FormatCents(item.priceCents), PriceWidth, '\n');
    PadStartAvoids(FormatCents(AmountCents(item)), AmountWidth, '\n');
  }

  /** An item prints as exactly one row per wrapped description line: the
      first with price and amount, every later one with blanks there. */
  lemma {:induction false} ItemBlockRows(item: OrderItem)
    ensures var printed := Split(ItemBlock(item), '\n');
            var lines := DescLines(item.desc);
            |printed| == |lines| + 1 && printed[|lines|] == []
            && (forall i | 0 <= i < |lines| :: printed[i] == ItemRow(item, i == 0, lines[i]))
  {
    var lines := DescLines(item.desc);
    ItemRowsAvoidNewline(item, lines);
    SplitTerminated(ItemRows(item, lines), '\n');
  }

  lemma ItemRowsAvoidNewline(item: OrderItem, lines: seq<string>)
    requires forall line | line in lines :: '\n' !in line
    ensures forall p | p in ItemRows(item, lines) :: '\n' !in p
  {
    var rows := ItemRows(item, lines);
    forall i | 0 <= i < |rows|
      ensures '\n' !in rows[i]
    {
      assert lines[i] in lines;
      ItemRowAvoidsNewline(item, i == 0, lines[i]);
    }
  }

  /** Row geometry: the quantity starts the row and the description line ends
      at column 20; a first row is 47 columns wide when the figures fit their
      columns, a continuation row is always 49 (14 + 15 blanks where the first
      row has 12 + 15 columns). */
  lemma RowWidths(item: OrderItem, line: string)
    requires |NatToString(item.qty)| + |line| <= QtyDescWidth
    ensures forall first: bool :: ItemRow(item, first, line)[..|NatToString(item.qty)|] == NatToString(item.qty)
    ensures forall first: bool :: ItemRow(item, first, line)[QtyDescWidth - |line|..QtyDescWidth] == line
    ensures |FormatCents(item.priceCents)| <= PriceWidth && |FormatCents(AmountCents(item))| <= AmountWidth
            ==> |ItemRow(item, true, line)| == 47
    ensures |ItemRow(item, false, line)| == 49
  {
    forall first: bool
      ensures ItemRow(item, first, line)[..|NatToString(item.qty)|] == NatToString(item.qty)
      ensures ItemRow(item, first, line)[QtyDescWidth - |line|..QtyDescWidth] == line
    {
      RowLead(item, first, line);
    }
  }

  /** Both kinds of row begin with the same 20 columns: the quantity and the
      right-aligned line. */
  lemma RowLead(item: OrderItem, first: bool, line: string)
    requires |NatToString(item.qty)| + |line| <= QtyDescWidth
    ensures var r := ItemRow(item, first, line);
            |r| >= QtyDescWidth
            && r[..|NatToString(item.qty)|] == NatToString(item.qty)
            && r[QtyDescWidth - |line|..QtyDescWidth] == line
  {
    var q := NatToString(item.qty);
    var lead := PadLabel(q, line, QtyDescWidth);
    var r := ItemRow(item, first, line);
    assert |lead| == QtyDescWidth;
    assert r[..QtyDescWidth] == lead;
    assert r[..|q|] == lead[..|q|];
    assert r[QtyDescWidth - |line|..QtyDescWidth] == lead[|lead| - |line|..];
  }

  // ---------------------------------------------------------------------
  // The student stubs printed after the receipt

  /** The numbers and date a stub shows. */
  datatype StubInfo = StubInfo(stubNumber: string, stubDate: string, orderNumber: string)

  function MealBanner(meal: Meal): string
  {
    match meal
    case Breakfast => "Breakfast - Meal"
    case Lunch => "Lunch - Meal"
    case Dinner => "Dinner - Meal"
  }

  /** A stub: divider, the heading with the date right-aligned, a blank line,
      the banner in triple size, a blank line, divider. */
  function Stub(heading: string, date: string, banner: string): string
  {
    Divider + PadLabel(heading, date, ReceiptWidth) + "\n" + "\n"
    + TripleSizeOn + banner + "\n" + DoubleSizeOff + "\n" + Divider
  }

  /** The lines of a stub, as split("\n") would cut them: the dashes, the
      heading line (48 wide when heading and date fit), an empty line, the
      banner after the triple-size command, the size reset on a line of its
      own, the dashes, and the empty piece after the final newline. */
  lemma StubLayout(heading: string, date: string, banner: string)
    requires '\n' !in heading && '\n' !in date && '\n' !in banner
    ensures Split(Stub(heading, date, banner), '\n')
         == [Dashes, PadLabel(heading, date, ReceiptWidth), [], TripleSizeOn + banner, DoubleSizeOff, Dashes, []]
    ensures |heading| + |date| <= ReceiptWidth ==> |PadLabel(heading, date, ReceiptWidth)| == ReceiptWidth
  {
    var line := PadLabel(heading, date, ReceiptWidth);
    PadStartAvoids(date, ReceiptWidth - |heading|, '\n');
    assert '\n' !in line;
    StubRows(heading, date, banner);
    DashesLine();
    assert '\n' !in TripleSizeOn && '\n' !in DoubleSizeOff;
    SixLinesSplit(Dashes, line, TripleSizeOn, banner, DoubleSizeOff);
  }

  lemma SixLinesSplit(ds: string, line: string, on: string, banner: string, off: string)
    requires '\n' !in ds && '\n' !in line && '\n' !in on && '\n' !in banner && '\n' !in off
    ensures Split(Terminated([ds, line, [], on + banner, off, ds], '\n'), '\n')
         == [ds, line, [], on + banner, off, ds, []]
  {
    var rows := [ds, line, [], on + banner, off, ds];
    forall p | p in rows
      ensures '\n' !in p
    {
    }
    SplitTerminated(rows, '\n');
    assert rows + [[]] == [ds, line, [], on + banner, off, ds, []];
  }

  /** A run of `n` dashes. */
  function Rule(n: nat): (r: string)
    ensures |r| == n && forall k | 0 <= k < n :: r[k] == '-'
  {
    seq(n, _ => '-')
  }

  /** The dashes hold no newline. */
  lemma DashesLine()
    ensures '\n' !in Dashes
  {
  }

  /** A stub is its six lines, each ended by a newline. */
  lemma StubRows(heading: string, date: string, banner: string)
    ensures Stub(heading, date, banner)
         == Terminated([Dashes, PadLabel(heading, date, ReceiptWidth), [], TripleSizeOn + banner, DoubleSizeOff, Dashes], '\n')
  {
    SixLines(Dashes, PadLabel(heading, date, ReceiptWidth), TripleSizeOn, banner, DoubleSizeOff);
  }

  lemma SixLines(ds: string, line: string, on: string, banner: string, off: string)
    ensures (ds + "\n") + line + "\n" + "\n" + on + banner + "\n" + off + "\n" + (ds + "\n")
         == Terminated([ds, line, [], on + banner, off, ds], '\n')
  {
    var rows := [ds, line, [], on + banner, off, ds];
    var t5 := Terminated(rows[5..], '\n');
    assert rows[5..] == [ds] && rows[5..][1..] == [];
    assert Terminated([], '\n') == [];
    assert t5 == ds + "\n" + [];
    var t4 := Terminated(rows[4..], '\n');
    assert rows[4..][1..] == rows[5..];
    assert t4 == off + "\n" + t5;
    var t3 := Terminated(rows[3..], '\n');
    assert rows[3..][1..] == rows[4..];
    assert t3 == on + banner + "\n" + t4;
    var t2 := Terminated(rows[2..], '\n');
    assert rows[2..][1..] == rows[3..];
    assert t2 == "\n" + t3;
    var t1 := Terminated(rows[1..], '\n');
    assert rows[1..][1..] == rows[2..];
    assert t1 == line + "\n" + t2;
    assert Terminated(rows, '\n') == ds + "\n" + t1;
  }

  function OrderNumberStub(info: StubInfo): string
  {
    Stub("Order Num: " + info.stubNumber, info.stubDate, info.orderNumber)
  }

  function MealStub(meal: Meal, info: StubInfo): string
  {
    Stub("Food Stub Num: " + info.stubNumber, info.stubDate, MealBanner(meal))
  }

  /** The order-number stub: the heading "Order Num: " with the stub number
      and the date, then the order number in triple size. */
  lemma OrderNumberStubLayout(info: StubInfo)
    requires '\n' !in info.stubNumber && '\n' !in info.stubDate && '\n' !in info.orderNumber
    ensures Split(OrderNumberStub(info), '\n')
         == [Dashes, PadLabel("Order Num: " + info.stubNumber, info.stubDate, ReceiptWidth), [],
             TripleSizeOn + info.orderNumber, DoubleSizeOff, Dashes, []]
  {
    assert '\n' !in "Order Num: ";
    StubLayout("Order Num: " + info.stubNumber, info.stubDate, info.orderNumber);
  }

  /** A meal stub: the heading "Food Stub Num: " with the stub number and the
      date, then the meal's banner in triple size. */
  lemma MealStubLayout(meal: Meal, info: StubInfo)
    requires '\n' !in info.stubNumber && '\n' !in info.stubDate
    ensures Split(MealStub(meal, info), '\n')
         == [Dashes, PadLabel("Food Stub Num: " + info.stubNumber, info.stubDate, ReceiptWidth), [],
             TripleSizeOn + MealBanner(meal), DoubleSizeOff, Dashes, []]
  {
    assert '\n' !in "Food Stub Num: ";
    BannerOneLine(meal);
    StubLayout("Food Stub Num: " + info.stubNumber, info.stubDate, MealBanner(meal));
  }

  lemma BannerOneLine(meal: Meal)
    ensures '\n' !in MealBanner(meal)
  {
  }

  /** The three meal stubs of one order are told apart by their banner. */
  lemma MealStubsDistinct(m1: Meal, m2: Meal, info: StubInfo)
    ensures MealStub(m1, info) == MealStub(m2, info) <==> m1 == m2
  {
    if m1 != m2 {
      assert |MealBanner(m1)| != |MealBanner(m2)|;
      assert |MealStub(m1, info)| != |MealStub(m2, info)|;
    }
  }

  // ---------------------------------------------------------------------
  // The data written into the agent

  const SampleTransaction := Transaction(
    "20241009C0004", "Cashier", "Cashier", "10/09/2024, 3:00PM", "1031231",
    "Franco Smith", "250", "55000", "100", "100", "100", "0")

  const SampleItems := [
    OrderItem(2, "Spaghetti", 500), OrderItem(1, "Item 2", 1500), OrderItem(3, "Item 3", 750)]

  const SampleStub := StubInfo("20241009C0005", "2024/12/25", "20241009C00005")

  /** The sample order sums to 47.50, yet its receipt prints "Total:" with
      the fixed field "100": the computed total is never printed. */
  lemma SampleTotalNotPrinted()
    ensures TotalCents(SampleItems) == 4750
    ensures FooterLines(SampleTransaction)[0] == PadLabel("Total:", "100", ReceiptWidth)
    ensures FormatCents(TotalCents(SampleItems)) == "47.50"
  {
    var first, two := SampleItems[..1], SampleItems[..2];
    assert first[..0] == [];
    assert TotalCents(first) == 1000;
    assert two[..1] == first;
    assert TotalCents(two) == 2500;
    assert SampleItems[..2] == two;
    SampleTotalText();
  }

  lemma SampleTotalText()
    ensures FormatCents(4750) == "47.50"
  {
    assert NatToString(47) == NatToString(4) + [DigitChar(7)] == "47";
    assert [DigitChar(5), DigitChar(0)] == "50";
  }
}
