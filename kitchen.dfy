/** The kitchen ticket of printKitchenReceipt
    (backend/local-client/local-client.js:386-490): a banner with the order
    number and a two-column table of quantities and wrapped descriptions. */
module Kitchen {
  import opened JsText
  import opened Wrap
  import opened Receipt

  const KitchenHeader: string := "   Quantity                    Description\n"
  /** The fixed gap between the kitchen quantity and description columns. */
  const KitchenGutter: string := "                       "
  const KitchenWrap := 30
  const KitchenQtyWidth := 8
  const KitchenDescWidth := 60

  /** One line of the kitchen order: no price. */
  datatype KitchenItem = KitchenItem(qty: nat, desc: string)

  /** The kitchen padText(quantity, description, qtyWidth, descWidth): the
      quantity right-aligned in `qtyWidth`, the fixed 23-blank gutter, the
      description left-aligned in `descWidth`; nothing is cut. */
  function KitchenPad(quantity: string, description: string, qtyWidth: int, descWidth: int): (r: string)
    ensures |r| == Max(qtyWidth, |quantity|) + |KitchenGutter| + Max(descWidth, |description|)
  {
    PadStart(quantity, qtyWidth) + KitchenGutter + PadEnd(description, descWidth)
  }

  /** The padded row is blanks, the quantity, the gutter, the description,
      blanks. */
  lemma KitchenPadShape(quantity: string, description: string, qtyWidth: int, descWidth: int)
    ensures KitchenPad(quantity, description, qtyWidth, descWidth)
         == Spaces(Max(0, qtyWidth - |quantity|)) + quantity + Spaces(23)
            + description + Spaces(Max(0, descWidth - |description|))
  {
    assert KitchenGutter == Spaces(23);
    if qtyWidth <= |quantity| {
      assert Spaces(0) + quantity == quantity;
    }
    if descWidth <= |description| {
      assert description + Spaces(0) == description;
    }
  }

  /** The description as wrapText(desc, 30).split("\n") cuts it. */
  function KitchenLines(desc: string): seq<string>
  {
    Split(Wrapped(desc, KitchenWrap), '\n')
  }

  /** One row, without its newline: the first row of an item carries its
      quantity, the later ones pass "" so the quantity column is blank. */
  function KitchenRow(item: KitchenItem, first: bool, line: string): (r: string)
    ensures |r| >= KitchenQtyWidth + |KitchenGutter| + KitchenDescWidth
    ensures !first || |NatToString(item.qty)| <= KitchenQtyWidth ==>
      |r| >= KitchenQtyWidth + |KitchenGutter| + |line|
      && r[KitchenQtyWidth + |KitchenGutter|..KitchenQtyWidth + |KitchenGutter| + |line|] == line
  {
    if first then KitchenPad(NatToString(item.qty), line, KitchenQtyWidth, KitchenDescWidth)
    else KitchenPad("", line, KitchenQtyWidth, KitchenDescWidth)
  }

  function KitchenRows(item: KitchenItem, lines: seq<string>): seq<string>
  {
    seq(|lines|, i requires 0 <= i < |lines| => KitchenRow(item, i == 0, lines[i]))
  }

  function KitchenBlock(item: KitchenItem): string
  {
    Terminated(KitchenRows(item, KitchenLines(item.desc)), '\n')
  }

  function KitchenSection(items: seq<KitchenItem>): string
  {
    if items == [] then [] else KitchenSection(items[..|items| - 1]) + KitchenBlock(items[|items| - 1])
  }

  function KitchenHead(orderNumber: string): string
  {
    AlignCenter + DoubleSizeOn + "KITCHEN\n" + "\n" + DoubleSizeOff
    + TripleSizeOn + orderNumber + "\n" + DoubleSizeOff + AlignLeft
    + Divider + KitchenHeader + Divider
  }

  function KitchenDocument(orderNumber: string, items: seq<KitchenItem>): string
  {
    KitchenHead(orderNumber) + KitchenSection(items) + Divider
  }

  /** The ticket builder of printKitchenReceipt. */
  method BuildKitchenTicket(orderNumber: string, items: seq<KitchenItem>) returns (receiptText: string)
    ensures receiptText == KitchenDocument(orderNumber, items)
  {
    var section := BuildKitchenSection(items);
    receiptText := KitchenHead(orderNumber) + section + Divider;
  }

  /** The item loop of printKitchenReceipt. */
  method BuildKitchenSection(items: seq<KitchenItem>) returns (section: string)
    ensures section == KitchenSection(items)
  {
    section := "";
    assert items[..0] == [] && section == KitchenSection(items[..0]);
    for n := 0 to |items|
      invariant section == KitchenSection(items[..n])
    {
      var block := BuildKitchenRows(items[n]);
      KitchenSectionAppended(items, n);
      section := section + block;
    }
    assert items[..|items|] == items;
  }

  /** The body of the item loop: wrap at 30 columns, one row per line. */
  method BuildKitchenRows(item: KitchenItem) returns (block: string)
    ensures block == KitchenBlock(item)
  {
    var wrapped := WrapText(item.desc, KitchenWrap);
    var wrappedDesc := Split(wrapped, '\n');
    block := EmitKitchenRows(item, wrappedDesc);
  }

  /** The row loop over the wrapped lines: the quantity on the first row,
      "" on the others. */
  method EmitKitchenRows(item: KitchenItem, wrappedDesc: seq<string>) returns (block: string)
    ensures block == Terminated(KitchenRows(item, wrappedDesc), '\n')
  {
    ghost var rows := KitchenRows(item, wrappedDesc);
    block := "";
    for i := 0 to |wrappedDesc|
      invariant block == Terminated(rows[..i], '\n')
    {
      var line;
      if i == 0 {
        line := KitchenPad(NatToString(item.qty), wrappedDesc[i], KitchenQtyWidth, KitchenDescWidth);
      } else {
        line := KitchenPad("", wrappedDesc[i], KitchenQtyWidth, KitchenDescWidth);
      }
      RowAppended(rows, i, line, block);
      block := block + line + "\n";
    }
    assert rows[..|wrappedDesc|] == rows;
  }

  lemma KitchenSectionAppended(items: seq<KitchenItem>, n: nat)
    requires n < |items|
    ensures KitchenSection(items[..n + 1]) == KitchenSection(items[..n]) + KitchenBlock(items[n])
  {
    PrefixGrows(items, n);
  }

  /** The wrapped lines are at most 30 wide and keep every non-blank
      character of the description, in order. */
  lemma KitchenLinesFit(desc: string)
    ensures forall line | line in KitchenLines(desc) :: |line| <= KitchenWrap
    ensures NonWhitespace(Join(KitchenLines(desc), '\n')) == NonWhitespace(desc)
  {
    WrappedLinesFit(desc, KitchenWrap);
    JoinSplit(Wrapped(desc, KitchenWrap), '\n');
    WrappedKeepsNonWhitespace(desc, KitchenWrap);
  }

  /** Every row of the ticket is 91 columns wide (8 + 23 + 60) when the
      quantity has at most 8 digits; a continuation row starts with 31
      blanks, so its quantity column is empty. */
  lemma KitchenRowGeometry(item: KitchenItem, line: string)
    requires |line| <= KitchenDescWidth
    ensures |NatToString(item.qty)| <= KitchenQtyWidth ==> |KitchenRow(item, true, line)| == 91
    ensures |KitchenRow(item, false, line)| == 91
    ensures KitchenRow(item, false, line)[..31] == Spaces(31)
    ensures KitchenRow(item, false, line)[31..31 + |line|] == line
  {
    KitchenPadShape("", line, KitchenQtyWidth, KitchenDescWidth);
    var r := KitchenRow(item, false, line);
    assert r == Spaces(8) + "" + Spaces(23) + line + Spaces(60 - |line|);
    assert r[..31] == Spaces(8) + Spaces(23);
  }

  lemma KitchenRowAvoidsNewline(item: KitchenItem, first: bool, line: string)
    requires '\n' !in line
    ensures '\n' !in KitchenRow(item, first, line)
  {
    var qty := NatToString(item.qty);
    assert '\n' !in qty;
    assert '\n' !in KitchenGutter;
    PadStartAvoids(qty, KitchenQtyWidth, '\n');
    PadStartAvoids("", KitchenQtyWidth, '\n');
    PadEndAvoids(line, KitchenDescWidth, '\n');
  }

  /** An item prints as exactly one row per wrapped line, the quantity on the
      first only. */
  lemma {:induction false} KitchenBlockRows(item: KitchenItem)
    ensures var printed := Split(KitchenBlock(item), '\n');
            var lines := KitchenLines(item.desc);
            |printed| == |lines| + 1 && printed[|lines|] == []
            && (forall i | 0 <= i < |lines| :: printed[i] == KitchenRow(item, i == 0, lines[i]))
  {
    var lines := KitchenLines(item.desc);
    KitchenRowsAvoidNewline(item, lines);
    SplitTerminated(KitchenRows(item, lines), '\n');
  }

  lemma KitchenRowsAvoidNewline(item: KitchenItem, lines: seq<string>)
    requires forall line | line in lines :: '\n' !in line
    ensures forall p | p in KitchenRows(item, lines) :: '\n' !in p
  {
    var rows := KitchenRows(item, lines);
    forall i | 0 <= i < |rows|
      ensures '\n' !in rows[i]
    {
      assert lines[i] in lines;
      KitchenRowAvoidsNewline(item, i == 0, lines[i]);
    }
  }

  const SampleKitchenItems := [KitchenItem(2, "Spaghetti"), KitchenItem(1, "Item 2"), KitchenItem(3, "Item 3")]
  const SampleKitchenOrder := "20241009C00010"
}
