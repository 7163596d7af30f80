# Print agent and relay, modelled in Dafny

The system is a point-of-sale print bridge. A browser sends a message to a
WebSocket relay. The relay passes it on to a print agent running next to a
network thermal printer. The agent probes the printer, replies with the
printer's status, and, when the printer is reachable, prints two jobs over a
raw TCP socket:

- a customer receipt followed by up to four student stubs;
- a kitchen ticket.

This project models the parts of the agent and relay that decide things:

- `JsText`: the JavaScript string built-ins the layout code relies on:
  - `trim`, `lastIndexOf`, `padStart`, `padEnd`, `split` and `includes`;
  - `toString` on a count;
  - `toFixed(2)` on a price, held here in integer cents.
- `Wrap`: `wrapText`, the word-wrapping loop both document builders define.
  `WrapText` is the loop, proved equal to the function `Wrapped`.
- `Receipt`: the receipt's `padText`, the item table (one row per wrapped
  description line), the header and footer, the running total and the
  student stubs.
  - The builders are methods with the source's loops, each proved equal to
    a document function.
  - Lemmas state the layout: row widths, one row per line, no character of
    a description lost.
- `Kitchen`: the kitchen `padText` and the kitchen ticket, in the same style.
- `PrintJob`: what each job hands to the printer's socket, in order.
  - The socket is a class whose `written` field records every `write`.
  - Each document is written with a newline and is followed by the paper cut
    `GS V 66 0`.
  - The stubs come in the order order number, breakfast, lunch, dinner, each
    only when its flag is on.
- `Probe`: `checkPrinterStatus`, a cascade: ping, then ports 631, 9100 and 515
  in order, then SNMP, then a fallback text.
  - The network's answers are inputs.
  - The method records which probes it attempted, so the short-circuiting
    can be stated.
- `Agent`: the agent's message handler. A non-empty message leads to one
  probe and one status reply, and both print jobs start exactly when the
  status contains "reachable".
- `Relay`: the relay's message rule. A message goes, unchanged, to every other
  open connection, whichever branch of the origin check runs.

The sample data written into the agent are constants here:
`SampleTransaction`, `SampleItems`, `SampleStub`, `SampleJob`,
`SampleKitchenItems` and `SampleKitchenOrder`. The documents are functions
of that data.

Where this model describes the code as written:

- The receipt's "Total:" line prints the fixed `total` field ("100"), not the
  computed `totalAmount`. For the sample order the computed total is 47.50.
- The "Tap Card:" line prints the `terminal` field.
- Continuation rows of the item table use 14 + 15 blanks, where the first row
  has 12 + 15 columns. So a continuation row is 49 columns wide and a first
  row 47.

## Model

| member | source | states |
|---|---|---|
| JsText.TrimStart | backend/local-client/local-client.js:185 | the result is a suffix of the input, starts with a non-whitespace character or is empty, and everything removed is whitespace |
| JsText.TrimEnd | backend/local-client/local-client.js:185 | the result is a prefix of the input, ends with a non-whitespace character or is empty, and everything removed is whitespace |
| JsText.Trim | backend/local-client/local-client.js:183-185 | the result is a window of the input with only whitespace before and after it, and no whitespace at either of its own ends; it is strictly shorter when the input starts with whitespace |
| JsText.NonWhitespaceTrim | backend/local-client/local-client.js:183-185 | trimming removes no non-whitespace character |
| JsText.NonWhitespaceAppend | backend/local-client/local-client.js:183-185 | the non-whitespace characters of a concatenation are those of its parts, in order |
| JsText.LastIndexOf | backend/local-client/local-client.js:178 | `lastIndexOf(c, from)` gives -1 or a position at or before `from` holding `c`, and no later position up to `from` holds `c` |
| JsText.PadStart | backend/local-client/local-client.js:172 | `padStart` gives length max(width, \|s\|), ends with `s`, and only blanks come before it; nothing is cut |
| JsText.PadEnd | backend/local-client/local-client.js:419 | `padEnd` gives length max(width, \|s\|), starts with `s`, and only blanks follow it |
| JsText.Split | backend/local-client/local-client.js:227 | `split` gives at least one piece, and no piece holds the separator |
| JsText.JoinSplit | backend/local-client/local-client.js:227 | joining the pieces of a split with the separator gives back the string |
| JsText.SplitJoin | backend/local-client/local-client.js:227 | splitting a join of separator-free pieces gives back the pieces |
| JsText.SplitAroundSeparator | backend/local-client/local-client.js:227 | splitting `a + sep + b` gives the pieces of `a` followed by the pieces of `b` |
| JsText.SplitTerminated | backend/local-client/local-client.js:240 | rows each ended by a newline split back into the rows plus one empty piece |
| JsText.Contains | backend/local-client/local-client.js:30 | `includes(p)` holds only when `p` is no longer than the string; `ContainsAt` and `ContainsWitness` tie it to an occurrence at some position |
| JsText.ContainsNeedsChar | backend/local-client/local-client.js:30 | a string lacking a character of the needle does not `include` the needle |
| JsText.ContainsAfterPrefix | backend/local-client/local-client.js:30 | after a prefix that cannot start or hold the needle, `includes` depends only on the rest |
| JsText.NatToString | backend/local-client/local-client.js:231 | `toString` of a count is a non-empty digit string without a leading zero |
| JsText.NatToStringRoundTrip | backend/local-client/local-client.js:231 | the digits of `toString(n)` read back as `n` |
| JsText.FormatCents | backend/local-client/local-client.js:235 | `toFixed(2)` gives digits, a point and exactly two digits, with no leading zero in a whole part of two or more digits; with `FormatCentsRoundTrip` this fixes the string |
| JsText.FormatCentsRoundTrip | backend/local-client/local-client.js:235 | reading the formatted amount back gives the same number of cents |
| Wrap.BreakIndex | backend/local-client/local-client.js:178-181 | the break is the last blank at or before `maxLength`, or `maxLength` when there is none |
| Wrap.RestShrinks | backend/local-client/local-client.js:185 | with `maxLength` at least 1, each pass shortens the text still to wrap |
| Wrap.Wrapped | backend/local-client/local-client.js:174-190 | a text that fits is returned unchanged |
| Wrap.WrapText | backend/local-client/local-client.js:174-190 | the loop produces exactly `Wrapped(text, maxLength)` |
| Wrap.WrapOnce | backend/local-client/local-client.js:177-185 | one pass shortens the text still to wrap and keeps the loop's invariant: what is emitted plus the wrapping of the rest is unchanged |
| Wrap.WrappedKeepsNonWhitespace | backend/local-client/local-client.js:174-190 | wrapping keeps every non-whitespace character of the input, in order |
| Wrap.WrappedLinesFit | backend/local-client/local-client.js:176-188 | every line of the wrapped text, as `split("\n")` cuts it, is at most `maxLength` long |
| Wrap.ZeroWidthMakesNoProgress | backend/local-client/local-client.js:176-185 | with `maxLength` 0, a pass over a text that neither starts nor ends with whitespace leaves it unchanged, so the loop would not end |
| Receipt.PadLabel | backend/local-client/local-client.js:171-173 | the label starts the result and the value ends it; the length is exactly the width when both fit, and otherwise the result is the plain concatenation |
| Receipt.PadLabelShape | backend/local-client/local-client.js:171-173 | the padded line is the label, a run of blanks, then the value |
| Receipt.BuildReceipt | backend/local-client/local-client.js:197-258 | the receipt text equals `ReceiptDocument` and the returned total is the sum of quantity times price |
| Receipt.BuildItemSection | backend/local-client/local-client.js:221-242 | the item loop produces the item section, and `totalAmount` is the sum of quantity times price over the items |
| Receipt.BuildItemRows | backend/local-client/local-client.js:226-241 | the item's block is its description wrapped at 18, split into lines, one row and newline per line |
| Receipt.EmitItemRows | backend/local-client/local-client.js:229-241 | the inner loop produces each line's row and a newline, in order; the first row carries price and amount |
| Receipt.DescLinesFit | backend/local-client/local-client.js:227 | description lines are at most 18 wide and keep every non-blank character of the description |
| Receipt.ShortDescOneLine | backend/local-client/local-client.js:227 | a description of at most 18 characters without a newline gives one row |
| Receipt.ItemBlockRows | backend/local-client/local-client.js:229-241 | an item's rows split back into one row per description line, the first carrying price and amount |
| Receipt.RowWidths | backend/local-client/local-client.js:231-240 | each row starts with the quantity and ends the description at column 20; a first row is 47 wide when the figures fit, a continuation row 49 |
| Receipt.ItemRow | backend/local-client/local-client.js:231-239 | a row is at least 20 + 12 + 15 columns on the first line of an item and 20 + 14 + 15 on later ones; `RowWidths` and `RowLead` place the quantity and the line |
| Receipt.HeaderLines | backend/local-client/local-client.js:207-214 | the eight labelled fields under the title, each `padText(label, field)`; rendered in `ReceiptHead` |
| Receipt.FooterLines | backend/local-client/local-client.js:246-249 | four footer lines, and the "Tap Card:" line ends with the `terminal` field, as written |
| Receipt.ReceiptHead | backend/local-client/local-client.js:197-219 | title in double size, the eight header lines, divider, table header, divider |
| Receipt.ReceiptFoot | backend/local-client/local-client.js:244-258 | divider, the four footer lines, divider, two blank lines, the centred disclaimer |
| Receipt.ReceiptDocument | backend/local-client/local-client.js:197-258 | the receipt is the head, the item section and the foot, in that order |
| Receipt.MealBanner | backend/local-client/local-client.js:296-329 | the banner of each meal: "Breakfast - Meal", "Lunch - Meal", "Dinner - Meal" |
| Receipt.StubLayout | backend/local-client/local-client.js:272-333 | a stub splits into the dashes, the heading line with the date right-aligned (exactly 48 wide when they fit), an empty line, the banner after the triple-size command, the size reset, the dashes, and the empty piece after the last newline |
| Receipt.OrderNumberStub | backend/local-client/local-client.js:272-285 | the order-number stub: heading "Order Num: " plus the stub number, the order number as banner |
| Receipt.OrderNumberStubLayout | backend/local-client/local-client.js:272-285 | the order-number stub has the seven pieces of `StubLayout`, with the order number on the banner line |
| Receipt.MealStub | backend/local-client/local-client.js:288-333 | a meal stub: heading "Food Stub Num: " plus the stub number, the meal banner |
| Receipt.MealStubLayout | backend/local-client/local-client.js:288-333 | a meal stub has the seven pieces of `StubLayout`, with the meal's banner on the banner line |
| Receipt.MealStubsDistinct | backend/local-client/local-client.js:288-333 | two meal stubs of one order are equal exactly when they are for the same meal |
| Receipt.SampleTotalNotPrinted | backend/local-client/local-client.js:221-246 | the sample order sums to 4750 cents ("47.50"), while the footer's "Total:" line shows the fixed "100" |
| Kitchen.KitchenPad | backend/local-client/local-client.js:414-421 | the length is max(qw, \|q\|) + 23 + max(dw, \|d\|) |
| Kitchen.KitchenPadShape | backend/local-client/local-client.js:414-421 | the row is blanks, the quantity, 23 blanks, the description, then blanks |
| Kitchen.KitchenRow | backend/local-client/local-client.js:449-456 | a row is at least 8 + 23 + 60 wide, and its line starts at column 31 on a continuation row or when the quantity fits in 8 |
| Kitchen.KitchenHead | backend/local-client/local-client.js:430-443 | "KITCHEN" in double size, the order number in triple size, divider, column header, divider |
| Kitchen.KitchenDocument | backend/local-client/local-client.js:428-460 | the ticket is the head, the item section and a closing divider |
| Kitchen.BuildKitchenTicket | backend/local-client/local-client.js:428-461 | the ticket text equals `KitchenDocument` |
| Kitchen.BuildKitchenSection | backend/local-client/local-client.js:444-459 | the item loop produces the kitchen section |
| Kitchen.BuildKitchenRows | backend/local-client/local-client.js:446-458 | the item's block is its description wrapped at 30, split into lines, one padded row per line |
| Kitchen.EmitKitchenRows | backend/local-client/local-client.js:449-457 | the inner loop produces each line's row and a newline, in order; only the first row carries the quantity |
| Kitchen.KitchenLinesFit | backend/local-client/local-client.js:446 | kitchen lines are at most 30 wide and keep every non-blank character of the description |
| Kitchen.KitchenRowGeometry | backend/local-client/local-client.js:449-456 | rows are 91 wide; a continuation row has an empty quantity column (31 blanks), then the line |
| Kitchen.KitchenBlockRows | backend/local-client/local-client.js:449-458 | an item's rows split back into one row per wrapped line, the quantity on the first only |
| PrintJob.DocumentWrites | backend/local-client/local-client.js:345-365 | each document contributes exactly two writes |
| PrintJob.PrinterConnection.Write | backend/local-client/local-client.js:345 | a write appends its chunk to the socket's record and leaves the socket open |
| PrintJob.PrinterConnection.End | backend/local-client/local-client.js:370 | `end` closes the socket and changes nothing written |
| PrintJob.PrintLongText | backend/local-client/local-client.js:129-384 | when the socket connects, the writes are the receipt's and then the enabled stubs' writes, and the socket is ended; otherwise nothing is written |
| PrintJob.SendLongText | backend/local-client/local-client.js:340-371 | the connect callback writes the receipt, then each enabled stub in flag order, each with newline and cut, then ends |
| PrintJob.WriteDocument | backend/local-client/local-client.js:348-351 | one document with its newline, then the cut, are appended |
| PrintJob.PrintKitchenReceipt | backend/local-client/local-client.js:462-477 | when the socket connects, the kitchen document with its newline, then the cut, are written and the socket ends |
| PrintJob.DocumentWritesAppend | backend/local-client/local-client.js:345-365 | the writes for two runs of documents are the writes of each, in order |
| PrintJob.DocumentWritesLayout | backend/local-client/local-client.js:345-365 | write 2i is document i with its newline, and write 2i+1 is the paper cut |
| PrintJob.JobDocuments | backend/local-client/local-client.js:345-366 | the receipt, then each stub whose flag is on, in the order order number, breakfast, lunch, dinner; `JobOrder` states the count and order |
| PrintJob.JobOrder | backend/local-client/local-client.js:345-365 | the receipt comes first; the count is one plus the enabled flags; with every flag on, the order is receipt, order number, breakfast, lunch, dinner |
| Probe.FirstOpen | backend/local-client/local-client.js:58-63 | the index of the first open port, or the list's length, with every earlier port closed |
| Probe.StatusText | backend/local-client/local-client.js:51-75 | the five status texts, one per verdict, as the agent writes them |
| Probe.StatusTextEnds | backend/local-client/local-client.js:58-68 | a port text ends with the port's digits, and an SNMP text with the value SNMP gave |
| Probe.Cascade | backend/local-client/local-client.js:51-75 | the ping is always the first probe, at most the ports and SNMP follow, and a port verdict names an open port of the list |
| Probe.CheckPrinterStatus | backend/local-client/local-client.js:51-75 | the status and the probes attempted are those of the cascade over 631, 9100, 515 |
| Probe.DeadPingStops | backend/local-client/local-client.js:53-56 | a ping that fails or throws ends the cascade after the ping, with the not-responding or error text |
| Probe.FirstOpenPortWins | backend/local-client/local-client.js:58-63 | the first open port in list order is reported and nothing after it is tried |
| Probe.SnmpOnlyWhenPortsClosed | backend/local-client/local-client.js:58-69 | SNMP is asked exactly when the ping answered and all three ports are closed, and it is then the last of five probes |
| Probe.ErrorOnlyOnFault | backend/local-client/local-client.js:51-75 | the error text comes exactly when the ping threw, or SNMP threw after every port was closed |
| Probe.ReachableWording | backend/local-client/local-client.js:30 | the status contains "reachable" exactly for a port verdict, the fallback, or an SNMP value containing the word |
| Agent.HandleMessage | backend/local-client/local-client.js:19-39 | the handler's probes, sends and print jobs are those of `OnMessage` |
| Agent.OnMessage | backend/local-client/local-client.js:19-39 | only an empty message sends nothing; the jobs started are none or both, long text first; when they start, exactly one reply was sent |
| Agent.EmptyMessageIgnored | backend/local-client/local-client.js:23 | an empty message triggers nothing |
| Agent.PrintRule | backend/local-client/local-client.js:23-33 | a non-empty message gets exactly one reply, "Printer status: " plus the status; both jobs start, long text first, exactly when the verdict is reachable |
| Agent.DeadPrinterNeverPrints | backend/local-client/local-client.js:23-33 | a ping that fails never prints, and only the ping is attempted |
| Agent.SendFailureNeverPrints | backend/local-client/local-client.js:34-37 | a throwing send prints nothing, and the error text follows the attempted reply |
| Agent.PortScenario | backend/local-client/local-client.js:23-33 | with only 9100 open, the trace is ping, 631, 9100; the reply names 9100; both jobs start |
| Agent.FallbackScenario | backend/local-client/local-client.js:23-33 | with every port closed and SNMP silent, all five probes run, the fallback text is sent, and both jobs start |
| Relay.Recipients | backend/server.js:65-69 | a client receives exactly when it is open and is not the sender |
| Relay.Deliveries | backend/server.js:67 | one send per recipient, in order, each carrying the message unchanged |
| Relay.OnRelayMessage | backend/server.js:54-80 | whatever the origin, the sends are exactly the deliveries to the recipients |
| Relay.Forward | backend/server.js:65-69 | one `forEach` appends a delivery for each other open client, in iteration order |
| Relay.RecipientsDistinct | backend/server.js:65-78 | with distinct connections, no client receives the message twice |
| Relay.NoEcho | backend/server.js:66 | no recipient is the sender, and every recipient is open |
| Relay.PairScenario | backend/server.js:54-80 | with one browser and one agent open, each reaches only the other; a closed peer receives nothing |

## Left out

- Network I/O is not modelled: the WebSocket client and server, `net.Socket` connects, `ping`, and the `net-snmp` session. Their outcomes are inputs: ping alive/silent/throwing, the set of open ports, the SNMP value/null/throwing, whether the printer socket connects, and whether `socket.send` throws.
- Timers are not modelled: the 5-second reconnect, the 1-second port timeout and the 5-second SNMP timer. A port that times out counts as closed, and an SNMP timeout counts as null.
- checkSNMP's varbind loop is reduced to its first result. The first `resolve` wins, so only the first varbind's value or error matters.
- Floating point is not modelled. Prices and amounts are integer cents, and `toFixed(2)` is `FormatCents`, whose rounding of binary fractions is not modelled.
- String lengths are counted in Unicode code points (Dafny's `char`), while JavaScript's `length`, `padStart`, `padEnd`, `lastIndexOf` and `substring` count UTF-16 code units. For text holding characters outside the Basic Multilingual Plane (an emoji, say) the widths, wrap points and padding of the model differ from the agent's, which may also split a surrogate pair across two lines.
- The bytes a string becomes on the socket are not modelled. Every character the documents hold is ASCII except what the sample data brings, and a write is recorded as the string itself.
- The console logging, the connection's greeting message, and the printer socket's `data`, `error` and `close` handlers are not modelled.
- `storeName` and `tapCard` are declared by the agent but never printed, so they play no part.
- The kitchen ticket's sample order number and item list are constants here, as in the agent.
- Wrap.WrapText: requires a width of at least 1. Both callers pass 18 and 30, and with 0 the source's loop need not end, as `ZeroWidthMakesNoProgress` shows.
- Agent.HandleMessage: the throwing case covers only `socket.send` of the reply. A throw inside the print jobs and a failing send of the error text itself are not modelled.
- Relay.OnRelayMessage: `wss.clients` is a set iterated in insertion order; here it is a sequence of clients with identities.
- The Express setup, the routes, the database model, the USB route and the React front end are not part of this model.
