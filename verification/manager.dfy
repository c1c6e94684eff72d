/**
 * The depot's bookkeeping core: the customer queue, the parcel table, the
 * append-only list of processed records and the event log, with the operations
 * that load, serve and collect. The event log is passed around as part of the
 * state rather than held in a process-wide singleton.
 */
module Depot {
  import opened Optional
  import opened JavaStrings
  import opened ParcelModel
  import opened CustomerModel
  import opened CustomerQueue
  import ParcelStore
  import FeeRule

  /**
   * Text the model takes as given: `String.format("%.2f", x)`, `Customer.toString()`
   * and `Double.toString(x)`.
   */
  datatype Formatter = Formatter(
    twoDecimals: real -> string,
    customerText: Customer -> string,
    decimal: real -> string)

  /** `Double.parseDouble` and `Integer.parseInt`: None where Java throws `NumberFormatException`. */
  datatype Parsers = Parsers(
    parseDouble: string -> Option<real>,
    parseInt: string -> Option<int>)

  /** Everything the manager owns, plus the event log it writes to. */
  datatype State = State(
    queue: Queue,
    parcels: ParcelStore.Store,
    processed: seq<string>,
    log: seq<string>)

  /** `new Manager()`: nothing queued, stored or processed; the event log carries on from `log`. */
  function NewManager(log: seq<string>): (s: State)
    ensures IsEmpty(s.queue) && s.parcels == map[] && s.processed == [] && s.log == log
  {
    State(EmptyQueue(), map[], [], log)
  }

  const NoCustomerMessage := "No customer left in queue to process."

  function NotFoundMessage(pid: string, name: string): string {
    "Parcel " + pid + " not found for " + name
  }

  function ProcessedRecord(pid: string, name: string, fee: string): string {
    "Processed Parcel ID " + pid + " for " + name + " | Fee: $" + fee
  }

  function CollectFailedMessage(pid: string, name: string): string {
    "Parcel " + pid + " not found for collection by " + name
  }

  function CollectedRecord(pid: string, name: string, fee: string): string {
    "Collected Parcel ID " + pid + " by " + name + " | Fee: $" + fee
  }

  /** `after` is `before` with exactly one more entry at the end, and that entry starts with `prefix`. */
  predicate AppendedOne(before: seq<string>, after: seq<string>, prefix: string) {
    |after| == |before| + 1 && after[..|before|] == before && prefix <= after[|before|]
  }

  /** The table lost the key `k` and every other entry is as it was. */
  predicate RemovedOnly(before: ParcelStore.Store, after: ParcelStore.Store, k: string) {
    && k !in after
    && (forall j :: j in after ==> j in before)
    && (forall j :: j in before && j != k ==> j in after && after[j] == before[j])
  }

  /**
   * `processNextCustomer`. On an empty queue only a log line is written. Otherwise
   * the head customer leaves the queue for good; if their upper-cased parcel id is
   * in the table that parcel is removed and one processed record, carrying its fee,
   * is appended to both the records and the log; if not, only a log line is written.
   */
  function ProcessNextCustomer(s: State, fmt: Formatter): (r: State)
    ensures IsEmpty(s.queue) ==> r == s.(log := s.log + [NoCustomerMessage])
    ensures !IsEmpty(s.queue) ==> r.queue.items == s.queue.items[1..]
    ensures !IsEmpty(s.queue) && ToUpper(s.queue.items[0].desiredId) !in s.parcels ==>
      var c := s.queue.items[0];
      && r.parcels == s.parcels
      && r.processed == s.processed
      && r.log == s.log + [NotFoundMessage(ToUpper(c.desiredId), c.name)]
    ensures !IsEmpty(s.queue) && ToUpper(s.queue.items[0].desiredId) in s.parcels ==>
      var c := s.queue.items[0];
      var pid := ToUpper(c.desiredId);
      && RemovedOnly(s.parcels, r.parcels, pid)
      && AppendedOne(s.processed, r.processed, "Processed Parcel ID " + pid + " for " + c.name)
      && r.processed[|s.processed|] == ProcessedRecord(pid, c.name, fmt.twoDecimals(FeeRule.Fee(s.parcels[pid])))
      && r.log == s.log + [r.processed[|s.processed|]]
  {
    if IsEmpty(s.queue) then
      s.(log := s.log + [NoCustomerMessage])
    else
      var next := Dequeue(s.queue);
      var c := next.head.value;
      var pid := ToUpper(c.desiredId);
      match ParcelStore.Get(s.parcels, pid)
      case None =>
        s.(queue := next.rest, log := s.log + [NotFoundMessage(pid, c.name)])
      case Some(p) =>
        var fee := FeeRule.Fee(p);
        var record := ProcessedRecord(pid, c.name, fmt.twoDecimals(fee));
        assert ("Processed Parcel ID " + pid + " for " + c.name) <= record;
        State(next.rest, ParcelStore.Remove(s.parcels, pid), s.processed + [record], s.log + [record])
  }

  /** The answer of `collectParcel` and the state it leaves. */
  datatype Collection = Collection(success: bool, state: State)

  /**
   * `collectParcel(customerName, parcelID)`: succeeds exactly when the upper-cased id
   * is in the table; then that parcel is removed and one collected record is appended
   * to the records and the log. On failure only a log line is written. The queue is
   * never touched.
   */
  function CollectParcel(s: State, customerName: string, parcelId: string, fmt: Formatter): (r: Collection)
    ensures r.success <==> ToUpper(parcelId) in s.parcels
    ensures r.state.queue == s.queue
    ensures r.success ==>
      var pid := ToUpper(parcelId);
      && RemovedOnly(s.parcels, r.state.parcels, pid)
      && AppendedOne(s.processed, r.state.processed, "Collected Parcel ID " + pid + " by " + customerName)
      && r.state.processed[|s.processed|] == CollectedRecord(pid, customerName, fmt.twoDecimals(FeeRule.Fee(s.parcels[pid])))
      && r.state.log == s.log + [r.state.processed[|s.processed|]]
    ensures !r.success ==>
      && r.state.parcels == s.parcels
      && r.state.processed == s.processed
      && r.state.log == s.log + [CollectFailedMessage(ToUpper(parcelId), customerName)]
  {
    var pid := ToUpper(parcelId);
    if ParcelStore.Contains(s.parcels, pid) then
      var p := ParcelStore.Get(s.parcels, pid).value;
      var fee := FeeRule.Fee(p);
      var record := CollectedRecord(pid, customerName, fmt.twoDecimals(fee));
      assert ("Collected Parcel ID " + pid + " by " + customerName) <= record;
      Collection(true, s.(parcels := ParcelStore.Remove(s.parcels, pid),
                          processed := s.processed + [record],
                          log := s.log + [record]))
    else
      Collection(false, s.(log := s.log + [CollectFailedMessage(pid, customerName)]))
  }

  /** What a line of the customer file asks for, before the loader gives it a sequence number. */
  datatype Request = Request(name: string, parcelId: string)

  /**
   * One line of the customer file: the trimmed line is cut at its first comma only;
   * the name is the trimmed left part and the parcel id the trimmed, upper-cased
   * right part. A line with no comma asks for nothing.
   */
  function CustomerRequest(line: string): (r: Option<Request>)
    ensures r.Some? <==> ',' in line
  {
    TrimShape(line);
    var parts := SplitFirstComma(Trim(line));
    if |parts| == 2 then
      Some(Request(Trim(parts[0]), ToUpper(Trim(parts[1]))))
    else
      None
  }

  /** The customer a line of the customer file creates under sequence number `seqNo`. */
  function CustomerLine(line: string, seqNo: int): (r: Option<Customer>)
    ensures r.Some? <==> ',' in line
    ensures r.Some? ==> r.value.seqNo == seqNo
  {
    match CustomerRequest(line)
    case None => None
    case Some(q) => Some(Customer(seqNo, q.name, q.parcelId))
  }

  /** An accepted line yields a trimmed name with no comma and an id already in upper case. */
  lemma CustomerLineNormalised(line: string, seqNo: int)
    requires ',' in line
    ensures var c := CustomerLine(line, seqNo).value;
      ',' !in c.name && Trim(c.name) == c.name && ToUpper(c.desiredId) == c.desiredId
  {
    TrimShape(line);
    SplitFirstCommaShape(Trim(line));
    var parts := SplitFirstComma(Trim(line));
    TrimShape(parts[0]);
    TrimIdempotent(parts[0]);
    ToUpperIdempotent(Trim(parts[1]));
  }

  /** A comma-free name, a comma, then anything: the first-comma split gives the two halves. */
  lemma SplitAfterName(name: string, id: string)
    requires ',' !in name
    ensures SplitFirstComma(name + "," + id) == [name, id]
  {
    var line := name + "," + id;
    assert line[..|name|] == name;
    assert line[|name| + 1..] == id;
    IndexOfFirst(line, ',', |name|);
  }

  /** Joining two trimmed strings with a comma gives a trimmed line. */
  lemma JoinedTrimmed(name: string, id: string)
    requires TrimmedShape(name) && TrimmedShape(id)
    ensures Trim(name + "," + id) == name + "," + id
  {
    var line := name + "," + id;
    if name != [] {
      assert line[0] == name[0];
    }
    if id != [] {
      assert line[|line| - 1] == id[|id| - 1];
    }
    TrimOfTrimmed(line);
  }

  /** A customer line written as `name,id` reads back as that name and the upper-cased id. */
  lemma {:induction false} CustomerLineRoundTrip(name: string, id: string, seqNo: int)
    requires ',' !in name && TrimmedShape(name) && TrimmedShape(id)
    ensures CustomerLine(name + "," + id, seqNo) == Some(Customer(seqNo, name, ToUpper(id)))
  {
    JoinedTrimmed(name, id);
    SplitAfterName(name, id);
    TrimOfTrimmed(name);
    TrimOfTrimmed(id);
  }

  /**
   * Any text without a comma, a comma, then any text: the customer is named by the
   * trimmed left part and wants the trimmed, upper-cased right part, however much
   * white space surrounds the comma or the line.
   */
  lemma CustomerLineFields(left: string, right: string, seqNo: int)
    requires ',' !in left
    ensures CustomerLine(left + "," + right, seqNo) == Some(Customer(seqNo, Trim(left), ToUpper(Trim(right))))
  {
    RequestFields(left + "," + right, left, right);
  }

  /** Trim characters around `name,id`, where `name` starts and `id` ends with a kept character. */
  lemma PaddedRequest(line: string, x: string, name: string, id: string, y: string)
    requires line == x + (name + "," + id) + y
    requires AllBlank(x, TrimBlank) && AllBlank(y, TrimBlank) && ',' !in name
    requires name == [] || !IsTrimChar(name[0])
    requires id == [] || !IsTrimChar(id[|id| - 1])
    ensures CustomerRequest(line) == Some(Request(Trim(name), ToUpper(Trim(id))))
  {
    var mid := name + "," + id;
    assert mid[0] == if name == [] then ',' else name[0];
    assert mid[|mid| - 1] == if id == [] then ',' else id[|id| - 1];
    TrimPadded(x, mid, y);
    TrimOfTrimmed(mid);
    SplitAfterName(name, id);
  }

  /** A line cut at a comma with no comma to its left reads as the two trimmed sides. */
  lemma RequestFields(line: string, left: string, right: string)
    requires line == left + "," + right && ',' !in left
    ensures CustomerRequest(line) == Some(Request(Trim(left), ToUpper(Trim(right))))
  {
    var x, name := LeadingBlanks(left);
    var id, y := TrailingBlanks(right);
    RegroupAroundComma(line, x, name, id, y);
    PaddedRequest(line, x, name, id, y);
  }

  /**
   * Every accepted line read through its first comma: the name is the trimmed text
   * before it and the parcel id the trimmed, upper-cased text after it.
   */
  lemma CustomerLineAtFirstComma(line: string, seqNo: int)
    requires ',' in line
    ensures var k := IndexOf(line, ',').value;
      CustomerLine(line, seqNo) == Some(Customer(seqNo, Trim(line[..k]), ToUpper(Trim(line[k + 1..]))))
  {
    var k := IndexOf(line, ',').value;
    AroundFirstComma(line, k);
    RequestFields(line, line[..k], line[k + 1..]);
  }

  lemma UpperX100()
    ensures ToUpper("x100") == "X100"
  {
    ToUpperAt("x100");
    assert ToUpper("x100")[0] == UpperChar('x') == 'X';
  }

  /** The line "Alice,x100" read as the first line of a load. */
  lemma AliceExample()
    ensures CustomerLine("Alice,x100", 1) == Some(Customer(1, "Alice", "X100"))
  {
    assert "Alice" + "," + "x100" == "Alice,x100";
    assert TrimmedShape("Alice") && TrimmedShape("x100");
    CustomerLineRoundTrip("Alice", "x100", 1);
    UpperX100();
  }

  lemma TrimAlicePadding()
    ensures Trim(" Alice ") == "Alice" && Trim(" x100 ") == "x100"
  {
    assert " Alice " == " " + "Alice" + " ";
    assert " x100 " == " " + "x100" + " ";
    TrimPadded(" ", "Alice", " ");
    TrimPadded(" ", "x100", " ");
    TrimOfTrimmed("Alice");
    TrimOfTrimmed("x100");
  }

  /** The line " Alice , x100 " read as the first line of a load: the white space around the comma goes. */
  lemma PaddedAliceExample()
    ensures CustomerLine(" Alice , x100 ", 1) == Some(Customer(1, "Alice", "X100"))
  {
    assert " Alice , x100 " == " Alice " + "," + " x100 ";
    CustomerLineFields(" Alice ", " x100 ", 1);
    TrimAlicePadding();
    UpperX100();
  }

  /** How many lines hold a comma, i.e. how many the customer loader accepts. */
  function AcceptedLines(lines: seq<string>): nat
    decreases |lines|
  {
    if |lines| == 0 then 0 else (if ',' in lines[0] then 1 else 0) + AcceptedLines(lines[1..])
  }

  /** What each line of the customer file asks for, in file order. */
  function Requests(lines: seq<string>): (r: seq<Option<Request>>)
    ensures |r| == |lines|
  {
    seq(|lines|, i requires 0 <= i < |lines| => CustomerRequest(lines[i]))
  }

  /**
   * The numbering of the `loadCustomers` loop: each request becomes a customer
   * under the next sequence number; a line that asked for nothing uses none.
   */
  function Numbered(rs: seq<Option<Request>>, next: int): (r: seq<Customer>)
    ensures |r| <= |rs|
    ensures forall i :: 0 <= i < |r| ==> r[i].seqNo == next + i
    decreases |rs|
  {
    if |rs| == 0 then []
    else match rs[0]
      case None => Numbered(rs[1..], next)
      case Some(q) => [Customer(next, q.name, q.parcelId)] + Numbered(rs[1..], next + 1)
  }

  /** The loop numbers exactly the lines that hold a comma. */
  lemma {:induction false} NumberedCount(lines: seq<string>, next: int)
    ensures |Numbered(Requests(lines), next)| == AcceptedLines(lines)
    decreases |lines|
  {
    if |lines| > 0 {
      var rs := Requests(lines);
      assert rs[0] == CustomerRequest(lines[0]);
      assert rs[1..] == Requests(lines[1..]);
      if ',' in lines[0] {
        NumberedCount(lines[1..], next + 1);
      } else {
        NumberedCount(lines[1..], next);
      }
    }
  }

  /**
   * The customers a load creates from `lines`, numbering from `next`: one per
   * accepted line, in file order, with consecutive sequence numbers.
   */
  function CustomersFrom(lines: seq<string>, next: int): (r: seq<Customer>)
    ensures |r| <= |lines|
    ensures forall i :: 0 <= i < |r| ==> r[i].seqNo == next + i
  {
    Numbered(Requests(lines), next)
  }

  /** A load creates exactly as many customers as the file has lines holding a comma. */
  lemma CustomersCount(lines: seq<string>, next: int)
    ensures |CustomersFrom(lines, next)| == AcceptedLines(lines)
  {
    NumberedCount(lines, next);
  }

  /** Concatenation is associative; stated once so that proofs about folds can name the step. */
  lemma ConcatAssoc<T>(a: seq<T>, b: seq<T>, c: seq<T>)
    ensures (a + b) + c == a + (b + c)
  {
  }

  /** The log line for one loaded customer. */
  function CustomerEntry(c: Customer, fmt: Formatter): string {
    "Loaded Customer: " + fmt.customerText(c)
  }

  function LoadedCustomerLog(cs: seq<Customer>, fmt: Formatter): seq<string>
    decreases |cs|
  {
    if |cs| == 0 then [] else [CustomerEntry(cs[0], fmt)] + LoadedCustomerLog(cs[1..], fmt)
  }

  /**
   * The body of the `loadCustomers` loop for the accepted lines, in file order:
   * enqueue the customer, then log it.
   */
  function AddCustomers(s: State, cs: seq<Customer>, fmt: Formatter): (r: State)
    ensures r.queue.items == s.queue.items + cs
    ensures r.log == s.log + LoadedCustomerLog(cs, fmt)
    ensures r.parcels == s.parcels && r.processed == s.processed
    decreases |cs|
  {
    if |cs| == 0 then s
    else
      var entry := CustomerEntry(cs[0], fmt);
      var s' := s.(queue := Enqueue(s.queue, cs[0]), log := s.log + [entry]);
      ConcatAssoc(s.log, [entry], LoadedCustomerLog(cs[1..], fmt));
      assert s'.queue.items + cs[1..] == s.queue.items + cs;
      AddCustomers(s', cs[1..], fmt)
  }

  /**
   * `loadCustomers` over the lines of the file. Numbering restarts at 1 on every
   * call; the accepted customers join the queue, in file order, behind those
   * already waiting; nothing else but the log changes.
   */
  function LoadCustomers(s: State, lines: seq<string>, fmt: Formatter): (r: State)
    ensures r.queue.items == s.queue.items + CustomersFrom(lines, 1)
    ensures r.parcels == s.parcels && r.processed == s.processed
    ensures r.log == s.log + LoadedCustomerLog(CustomersFrom(lines, 1), fmt)
  {
    AddCustomers(s, CustomersFrom(lines, 1), fmt)
  }

  /** What one line of the parcel file does to the load. */
  datatype ParcelLineOutcome = Skipped | Aborted | Loaded(parcel: Parcel)

  /**
   * One line of the parcel file: the trimmed line is split at commas together with
   * the white space around them. Not exactly six fields: the line is skipped. A
   * number that does not parse: the whole load stops. Otherwise a new, uncollected
   * parcel under the upper-cased id.
   */
  function ParcelLine(line: string, parse: Parsers): (r: ParcelLineOutcome)
    ensures var f := SplitFields(Trim(line));
      && (r.Skipped? <==> |f| != 6)
      && (r.Aborted? <==>
            |f| == 6 &&
            (|| parse.parseDouble(f[1]).None? || parse.parseDouble(f[2]).None?
             || parse.parseDouble(f[3]).None? || parse.parseDouble(f[4]).None?
             || parse.parseInt(f[5]).None?))
      && (r.Loaded? ==>
            && r.parcel.id == ToUpper(f[0])
            && Some(r.parcel.length) == parse.parseDouble(f[1])
            && Some(r.parcel.width) == parse.parseDouble(f[2])
            && Some(r.parcel.height) == parse.parseDouble(f[3])
            && Some(r.parcel.weight) == parse.parseDouble(f[4])
            && Some(r.parcel.daysInDepot) == parse.parseInt(f[5])
            && !r.parcel.collected)
    ensures r.Loaded? ==> ToUpper(r.parcel.id) == r.parcel.id
  {
    var parts := SplitFields(Trim(line));
    if |parts| != 6 then Skipped
    else
      var pid := ToUpper(parts[0]);
      ToUpperIdempotent(parts[0]);
      match (parse.parseDouble(parts[1]), parse.parseDouble(parts[2]), parse.parseDouble(parts[3]),
             parse.parseDouble(parts[4]), parse.parseInt(parts[5]))
      case (Some(length), Some(width), Some(height), Some(weight), Some(days)) =>
        Loaded(NewParcel(pid, length, width, height, weight, days))
      case _ => Aborted
  }

  /**
   * The outcome of a line whose six fields are `fields`: never skipped; loaded
   * exactly when every number parses, and then a new parcel with those numbers
   * under the upper-cased first field.
   */
  predicate ReadsFields(r: ParcelLineOutcome, fields: seq<string>, parse: Parsers)
    requires |fields| == 6
  {
    && !r.Skipped?
    && (r.Loaded? <==>
          && parse.parseDouble(fields[1]).Some? && parse.parseDouble(fields[2]).Some?
          && parse.parseDouble(fields[3]).Some? && parse.parseDouble(fields[4]).Some?
          && parse.parseInt(fields[5]).Some?)
    && (r.Loaded? ==>
          r.parcel == NewParcel(ToUpper(fields[0]),
            parse.parseDouble(fields[1]).value, parse.parseDouble(fields[2]).value,
            parse.parseDouble(fields[3]).value, parse.parseDouble(fields[4]).value,
            parse.parseInt(fields[5]).value))
  }

  /** A line whose trimmed split gives six fields reads as those fields. */
  lemma ParcelLineOfFields(line: string, fields: seq<string>, parse: Parsers)
    requires |fields| == 6 && SplitFields(Trim(line)) == fields
    ensures ReadsFields(ParcelLine(line, parse), fields, parse)
  {
  }

  /** A parcel line written as six clean fields joined by commas reads as those fields. */
  lemma ParcelLineRoundTrip(fields: seq<string>, parse: Parsers)
    requires |fields| == 6
    requires forall i :: 0 <= i < 6 ==> CleanField(fields[i])
    requires CleanField(fields[0]) && !IsTrimChar(fields[0][0])
    requires CleanField(fields[5]) && !IsTrimChar(fields[5][|fields[5]| - 1])
    ensures ReadsFields(ParcelLine(JoinWithCommas(fields), parse), fields, parse)
  {
    var line := JoinWithCommas(fields);
    assert line == fields[0] + [','] + JoinWithCommas(fields[1..]);
    assert line[0] == fields[0][0];
    JoinLast(fields);
    TrimOfTrimmed(line);
    SplitFieldsJoin(fields);
    ParcelLineOfFields(line, fields, parse);
  }

  /**
   * Six clean fields joined by commas, with white space on either side of any comma
   * and trim characters around the whole line, still read as those six fields.
   */
  lemma ParcelLinePadded(line: string, fields: seq<string>, pre: seq<string>, post: seq<string>,
                         lead: string, trail: string, parse: Parsers)
    requires |fields| == 6 && PaddingAroundCommas(fields, pre, post)
    requires CleanField(fields[0]) && !IsTrimChar(fields[0][0])
    requires CleanField(fields[5]) && !IsTrimChar(fields[5][|fields[5]| - 1])
    requires AllBlank(lead, TrimBlank) && AllBlank(trail, TrimBlank)
    requires line == lead + JoinWithCommas(Padded(fields, pre, post)) + trail
    ensures ReadsFields(ParcelLine(line, parse), fields, parse)
  {
    var pieces := Padded(fields, pre, post);
    var joined := JoinWithCommas(pieces);
    assert pieces[0] == fields[0] + post[0];
    assert pieces[5] == pre[5] + fields[5];
    assert joined == pieces[0] + [','] + JoinWithCommas(pieces[1..]);
    assert joined[0] == fields[0][0];
    JoinLast(pieces);
    TrimOfTrimmed(joined);
    TrimPadded(lead, joined, trail);
    SplitFieldsPadded(fields, pre, post);
    ParcelLineOfFields(line, fields, parse);
  }

  const ExampleFields := ["c200", "2", "3", "4", "5", "10"]
  const ExampleBefore := ["", " ", " ", " ", " ", " "]
  const ExampleAfter := ["", "", "", "", "", ""]

  lemma ExamplePadding()
    ensures PaddingAroundCommas(ExampleFields, ExampleBefore, ExampleAfter)
  {
    assert AllBlank(" ", RegexBlank);
    assert forall i :: 0 <= i < 6 ==> CleanField(ExampleFields[i]);
  }

  const ExamplePieces := ["c200", " 2", " 3", " 4", " 5", " 10"]

  lemma ExamplePadded()
    ensures Padded(ExampleFields, ExampleBefore, ExampleAfter) == ExamplePieces
  {
    forall i | 0 <= i < 6
      ensures Padded(ExampleFields, ExampleBefore, ExampleAfter)[i] == ExamplePieces[i]
    {
      assert ExampleBefore[i] + ExampleFields[i] + ExampleAfter[i] == ExamplePieces[i];
    }
  }

  lemma ExampleJoin()
    ensures JoinWithCommas(ExamplePieces) == "c200, 2, 3, 4, 5, 10"
  {
  }

  /** The line "c200, 2, 3, 4, 5, 10": six fields, the white space after each comma dropped. */
  lemma ParcelLineExample(parse: Parsers)
    ensures ReadsFields(ParcelLine("c200, 2, 3, 4, 5, 10", parse), ["c200", "2", "3", "4", "5", "10"], parse)
  {
    ExamplePadding();
    ExamplePadded();
    ExampleJoin();
    ParcelLinePadded("c200, 2, 3, 4, 5, 10", ExampleFields, ExampleBefore, ExampleAfter, "", "", parse);
  }

  /** The parcel of that line is stored under the id "C200". */
  lemma UpperC200()
    ensures ToUpper("c200") == "C200"
  {
    ToUpperAt("c200");
  }

  /** What each line of the parcel file does, in file order. */
  function ParcelOutcomes(lines: seq<string>, parse: Parsers): (r: seq<ParcelLineOutcome>)
    ensures |r| == |lines|
    decreases |lines|
  {
    if |lines| == 0 then [] else [ParcelLine(lines[0], parse)] + ParcelOutcomes(lines[1..], parse)
  }

  /**
   * The control flow of the `loadParcels` loop over the line outcomes: a skipped
   * line is passed over, an aborting line ends the loop, a loaded line inserts its
   * parcel. Every parcel read comes from a loaded line.
   */
  function ReadParcels(os: seq<ParcelLineOutcome>): (r: seq<Parcel>)
    ensures |r| <= |os|
    ensures forall i :: 0 <= i < |r| ==> Loaded(r[i]) in os
    decreases |os|
  {
    if |os| == 0 then []
    else match os[0]
      case Skipped => ReadParcels(os[1..])
      case Aborted => []
      case Loaded(p) => [p] + ReadParcels(os[1..])
  }

  /** A loaded line always carries an upper-case id and an uncollected parcel. */
  lemma {:induction false} OutcomesLoadedNormal(lines: seq<string>, parse: Parsers, p: Parcel)
    requires Loaded(p) in ParcelOutcomes(lines, parse)
    ensures ToUpper(p.id) == p.id && !p.collected
    decreases |lines|
  {
    if |lines| > 0 {
      var rest := ParcelOutcomes(lines[1..], parse);
      if ParcelLine(lines[0], parse) != Loaded(p) {
        assert Loaded(p) in rest;
        OutcomesLoadedNormal(lines[1..], parse, p);
      }
    }
  }

  /** The parcels a load inserts: those of the loaded lines before the first aborting line. */
  function LoadedParcels(lines: seq<string>, parse: Parsers): (r: seq<Parcel>)
    ensures |r| <= |lines|
    ensures forall i :: 0 <= i < |r| ==> ToUpper(r[i].id) == r[i].id && !r[i].collected
  {
    var r := ReadParcels(ParcelOutcomes(lines, parse));
    assert forall i :: 0 <= i < |r| ==> ToUpper(r[i].id) == r[i].id && !r[i].collected by {
      forall i | 0 <= i < |r|
        ensures ToUpper(r[i].id) == r[i].id && !r[i].collected
      {
        OutcomesLoadedNormal(lines, parse, r[i]);
      }
    }
    r
  }

  /** The log line for one loaded parcel. */
  function ParcelEntry(p: Parcel, fmt: Formatter): string {
    "Loaded Parcel: " + ParcelText(p, fmt.decimal)
  }

  function LoadedParcelLog(ps: seq<Parcel>, fmt: Formatter): seq<string>
    decreases |ps|
  {
    if |ps| == 0 then [] else [ParcelEntry(ps[0], fmt)] + LoadedParcelLog(ps[1..], fmt)
  }

  /** The body of the `loadParcels` loop for the loaded lines, in file order: insert the parcel, then log it. */
  function AddParcels(s: State, ps: seq<Parcel>, fmt: Formatter): (r: State)
    ensures r.parcels == ParcelStore.PutAll(s.parcels, ps)
    ensures r.log == s.log + LoadedParcelLog(ps, fmt)
    ensures r.queue == s.queue && r.processed == s.processed
    decreases |ps|
  {
    if |ps| == 0 then s
    else
      var entry := ParcelEntry(ps[0], fmt);
      var s' := s.(parcels := ParcelStore.Put(s.parcels, ps[0]), log := s.log + [entry]);
      ConcatAssoc(s.log, [entry], LoadedParcelLog(ps[1..], fmt));
      AddParcels(s', ps[1..], fmt)
  }

  /**
   * `loadParcels` over the lines of the file. Skipped lines change nothing; the
   * first line with a bad number ends the load, keeping what was inserted before it.
   */
  function LoadParcels(s: State, lines: seq<string>, parse: Parsers, fmt: Formatter): (r: State)
    ensures r.parcels == ParcelStore.PutAll(s.parcels, LoadedParcels(lines, parse))
    ensures r.log == s.log + LoadedParcelLog(LoadedParcels(lines, parse), fmt)
    ensures r.queue == s.queue && r.processed == s.processed
  {
    AddParcels(s, LoadedParcels(lines, parse), fmt)
  }

  /** Joins the entries, each followed by a newline. */
  function Lines(entries: seq<string>): (r: string)
    ensures |entries| > 0 ==> |r| > 0 && r[|r| - 1] == '\n'
    decreases |entries|
  {
    if |entries| == 0 then "" else entries[0] + "\n" + Lines(entries[1..])
  }

  const NoCustomersText := "[No customers in queue]"
  const NoParcelsText := "[No parcels loaded]"
  const NoProcessedText := "[No parcels processed yet]"

  /** `getCustomerListAsString`: the placeholder exactly when nobody is waiting. */
  function CustomerListText(s: State, fmt: Formatter): (r: string)
    ensures r == NoCustomersText <==> IsEmpty(s.queue)
  {
    if IsEmpty(s.queue) then NoCustomersText
    else
      var cs := GetAllCustomers(s.queue);
      Lines(seq(|cs|, i requires 0 <= i < |cs| => fmt.customerText(cs[i])))
  }

  /** `formatParcelForDisplay`: the parcel's fields without the collected flag. */
  function ParcelDisplayText(p: Parcel, fmt: Formatter): string {
    "Parcel{ID='" + p.id + "', LxWxH="
      + fmt.decimal(p.length) + "x" + fmt.decimal(p.width) + "x" + fmt.decimal(p.height)
      + ", weight=" + fmt.decimal(p.weight)
      + ", days=" + IntText(p.daysInDepot) + "}"
  }

  /**
   * `getParcelListAsString`, given the table's enumeration `all` (its order is the
   * table's own): the placeholder exactly when there are no parcels.
   */
  function ParcelListText(all: seq<Parcel>, fmt: Formatter): (r: string)
    ensures r == NoParcelsText <==> all == []
  {
    if all == [] then NoParcelsText
    else Lines(seq(|all|, i requires 0 <= i < |all| => ParcelDisplayText(all[i], fmt)))
  }

  /** `getProcessedListAsString`: the placeholder exactly when nothing has been processed. */
  function ProcessedListText(s: State): (r: string)
    ensures r == NoProcessedText <==> s.processed == []
  {
    if s.processed == [] then NoProcessedText else Lines(s.processed)
  }
}
