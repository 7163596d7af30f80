/** The two print jobs and what they hand to the printer's socket, in order
    (backend/local-client/local-client.js:129-384 and 386-490): each document
    goes out as one text write ending in a newline, followed by the paper
    cut command as raw bytes. */
module PrintJob {
  import opened Receipt
  import opened Kitchen

  newtype byte = x: int | 0 <= x < 256

  /** GS V 66 0: feed the paper and cut it. */
  const PaperCut: seq<byte> := [0x1d, 0x56, 0x42, 0x00]

  /** The argument of one client.write call. */
  datatype Chunk = Text(text: string) | Raw(bytes: seq<byte>)

  /** Which stubs follow the receipt. */
  datatype StubFlags = StubFlags(orderNumber: bool, breakfast: bool, lunch: bool, dinner: bool)

  /** Everything printLongText prints: the receipt's data, the stubs' data,
      and which stubs are on. */
  datatype LongTextJob = LongTextJob(t: Transaction, items: seq<OrderItem>, info: StubInfo, flags: StubFlags)

  /** The printer's socket as the jobs use it: the writes so far, in order,
      and whether end() has been called. */
  class PrinterConnection {
    var written: seq<Chunk>
    var ended: bool

    constructor ()
      ensures written == [] && !ended
    {
      written := [];
      ended := false;
    }

    method Write(chunk: Chunk)
      requires !ended
      modifies this
      ensures written == old(written) + [chunk] && !ended
    {
      written := written + [chunk];
    }

    method End()
      modifies this
      ensures written == old(written) && ended
    {
      ended := true;
    }
  }

  /** The writes for a series of documents: each one with a newline, then
      the cut. */
  function DocumentWrites(docs: seq<string>): (w: seq<Chunk>)
    ensures |w| == 2 * |docs|
  {
    if docs == [] then [] else [Text(docs[0] + "\n"), Raw(PaperCut)] + DocumentWrites(docs[1..])
  }

  /** The four stubs printLongText always builds. */
  datatype StubTexts = StubTexts(orderNumber: string, breakfast: string, lunch: string, dinner: string)

  function StubTextsOf(info: StubInfo): StubTexts
  {
    StubTexts(OrderNumberStub(info), MealStub(Breakfast, info), MealStub(Lunch, info), MealStub(Dinner, info))
  }

  /** The receipt, then the stubs that are switched on, in the order the job
      prints them. */
  function JobDocuments(receipt: string, stubs: StubTexts, flags: StubFlags): seq<string>
  {
    [receipt]
    + (if flags.orderNumber then [stubs.orderNumber] else [])
    + (if flags.breakfast then [stubs.breakfast] else [])
    + (if flags.lunch then [stubs.lunch] else [])
    + (if flags.dinner then [stubs.dinner] else [])
  }

  function LongTextDocuments(job: LongTextJob): seq<string>
  {
    JobDocuments(ReceiptDocument(job.t, job.items), StubTextsOf(job.info), job.flags)
  }

  /** printLongText: build the receipt and the four stubs, then send them. */
  method PrintLongText(job: LongTextJob, connects: bool) returns (client: PrinterConnection)
    ensures fresh(client)
    ensures connects ==> client.written == DocumentWrites(LongTextDocuments(job)) && client.ended
    ensures !connects ==> client.written == [] && !client.ended
  {
    var receiptText, totalAmount := BuildReceipt(job.t, job.items);
    var stubs := StubTexts(OrderNumberStub(job.info), MealStub(Breakfast, job.info),
                           MealStub(Lunch, job.info), MealStub(Dinner, job.info));
    client := SendLongText(receiptText, stubs, job.flags, connects);
  }

  /** The connect callback of printLongText: once the socket connects, write
      the receipt and each enabled stub, each with its newline and a cut,
      then end the connection. When the connection fails nothing is
      written. */
  method SendLongText(receiptText: string, stubs: StubTexts, flags: StubFlags, connects: bool)
    returns (client: PrinterConnection)
    ensures fresh(client)
    ensures connects ==> client.written == DocumentWrites(JobDocuments(receiptText, stubs, flags)) && client.ended
    ensures !connects ==> client.written == [] && !client.ended
  {
    client := new PrinterConnection();
    if !connects {
      return;
    }
    ghost var docs := [receiptText];
    client.Write(Text(receiptText + "\n"));
    client.Write(Raw(PaperCut));
    assert client.written == DocumentWrites(docs);
    if flags.orderNumber {
      WriteDocument(client, docs, stubs.orderNumber);
      docs := docs + [stubs.orderNumber];
    }
    if flags.breakfast {
      WriteDocument(client, docs, stubs.breakfast);
      docs := docs + [stubs.breakfast];
    }
    if flags.lunch {
      WriteDocument(client, docs, stubs.lunch);
      docs := docs + [stubs.lunch];
    }
    if flags.dinner {
      WriteDocument(client, docs, stubs.dinner);
      docs := docs + [stubs.dinner];
    }
    assert docs == JobDocuments(receiptText, stubs, flags);
    client.End();
  }

  /** One document and its cut, written to an open connection. */
  method WriteDocument(client: PrinterConnection, ghost docs: seq<string>, doc: string)
    requires !client.ended && client.written == DocumentWrites(docs)
    modifies client
    ensures client.written == DocumentWrites(docs + [doc]) && !client.ended
  {
    DocumentWritesAppend(docs, [doc]);
    client.Write(Text(doc + "\n"));
    client.Write(Raw(PaperCut));
  }

  /** printKitchenReceipt: one document, its newline, the cut, the end. */
  method PrintKitchenReceipt(orderNumber: string, items: seq<KitchenItem>, connects: bool)
    returns (client: PrinterConnection)
    ensures fresh(client)
    ensures connects ==> client.written == DocumentWrites([KitchenDocument(orderNumber, items)]) && client.ended
    ensures !connects ==> client.written == [] && !client.ended
  {
    var receiptText := BuildKitchenTicket(orderNumber, items);
    client := new PrinterConnection();
    if !connects {
      return;
    }
    client.Write(Text(receiptText + "\n"));
    client.Write(Raw(PaperCut));
    client.End();
  }

  lemma {:induction false} DocumentWritesAppend(a: seq<string>, b: seq<string>)
    ensures DocumentWrites(a + b) == DocumentWrites(a) + DocumentWrites(b)
  {
    if a == [] {
      assert a + b == b;
    } else {
      assert (a + b)[1..] == a[1..] + b;
      DocumentWritesAppend(a[1..], b);
    }
  }

  /** The write stream alternates: document i (with its newline) at 2i, a
      cut right after it at 2i+1. */
  lemma DocumentWritesLayout(docs: seq<string>)
    ensures forall i | 0 <= i < |docs| ::
      DocumentWrites(docs)[2 * i] == Text(docs[i] + "\n") && DocumentWrites(docs)[2 * i + 1] == Raw(PaperCut)
  {
    forall i | 0 <= i < |docs|
      ensures DocumentWrites(docs)[2 * i] == Text(docs[i] + "\n") && DocumentWrites(docs)[2 * i + 1] == Raw(PaperCut)
    {
      DocumentWriteAt(docs, i);
    }
  }

  lemma {:induction false} DocumentWriteAt(docs: seq<string>, i: nat)
    requires i < |docs|
    ensures DocumentWrites(docs)[2 * i] == Text(docs[i] + "\n") && DocumentWrites(docs)[2 * i + 1] == Raw(PaperCut)
    decreases i
  {
    if i > 0 {
      DocumentWriteAt(docs[1..], i - 1);
      var w, rest := DocumentWrites(docs), DocumentWrites(docs[1..]);
      assert w == [Text(docs[0] + "\n"), Raw(PaperCut)] + rest;
      assert w[2 * i] == rest[2 * (i - 1)] && w[2 * i + 1] == rest[2 * (i - 1) + 1];
      assert docs[i] == docs[1..][i - 1];
    }
  }

  /** The receipt is always first; then come the enabled stubs in the order
      order number, breakfast, lunch, dinner: with every flag on, five
      documents. */
  lemma JobOrder(receipt: string, stubs: StubTexts, flags: StubFlags)
    ensures JobDocuments(receipt, stubs, flags)[0] == receipt
    ensures |JobDocuments(receipt, stubs, flags)| == 1 + (if flags.orderNumber then 1 else 0)
      + (if flags.breakfast then 1 else 0) + (if flags.lunch then 1 else 0)
      + (if flags.dinner then 1 else 0)
    ensures flags == StubFlags(true, true, true, true) ==>
      JobDocuments(receipt, stubs, flags)
      == [receipt, stubs.orderNumber, stubs.breakfast, stubs.lunch, stubs.dinner]
  {
  }

  const SampleFlags := StubFlags(true, true, true, true)
  const SampleJob := LongTextJob(SampleTransaction, SampleItems, SampleStub, SampleFlags)
}
