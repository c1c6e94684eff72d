/**
 * Properties of sequences of depot operations and of whole loads: records and log
 * entries are only ever appended, the queue only loses customers from its head,
 * parcels only leave the table, and each parcel that leaves produces exactly one
 * record, so no parcel is handed out twice.
 */
module DepotProperties {
  import opened Optional
  import opened JavaStrings
  import opened ParcelModel
  import opened CustomerModel
  import opened CustomerQueue
  import opened Depot

  /** The two operations that change the depot after loading. */
  datatype Op = ProcessNext | Collect(customerName: string, parcelId: string)

  function Step(s: State, op: Op, fmt: Formatter): State {
    match op
    case ProcessNext => ProcessNextCustomer(s, fmt)
    case Collect(name, id) => CollectParcel(s, name, id, fmt).state
  }

  function Run(s: State, ops: seq<Op>, fmt: Formatter): State
    decreases |ops|
  {
    if |ops| == 0 then s else Run(Step(s, ops[0], fmt), ops[1..], fmt)
  }

  /**
   * `r` can follow `s`: records and log only grew at the end, the queue is a
   * suffix of the old one, the table only lost entries, and every entry that left
   * the table left one record behind.
   */
  predicate Follows(s: State, r: State) {
    && s.processed <= r.processed
    && s.log <= r.log
    && |r.queue.items| <= |s.queue.items|
    && r.queue.items == s.queue.items[|s.queue.items| - |r.queue.items|..]
    && (forall k :: k in r.parcels ==> k in s.parcels && r.parcels[k] == s.parcels[k])
    && |r.processed| - |s.processed| == |s.parcels| - |r.parcels|
  }

  lemma FollowsTransitive(a: State, b: State, c: State)
    requires Follows(a, b) && Follows(b, c)
    ensures Follows(a, c)
  {
    var x := |a.queue.items| - |b.queue.items|;
    var y := |b.queue.items| - |c.queue.items|;
    assert c.queue.items == a.queue.items[x..][y..];
    assert a.queue.items[x..][y..] == a.queue.items[x + y..];
  }

  lemma ProcessFollows(s: State, fmt: Formatter)
    ensures Follows(s, ProcessNextCustomer(s, fmt))
  {
    var r := ProcessNextCustomer(s, fmt);
    if !IsEmpty(s.queue) {
      var pid := ToUpper(s.queue.items[0].desiredId);
      if pid in s.parcels {
        assert r.parcels.Keys == s.parcels.Keys - {pid};
      }
    }
  }

  lemma CollectFollows(s: State, name: string, id: string, fmt: Formatter)
    ensures Follows(s, CollectParcel(s, name, id, fmt).state)
  {
    var r := CollectParcel(s, name, id, fmt).state;
    var pid := ToUpper(id);
    if pid in s.parcels {
      assert r.parcels.Keys == s.parcels.Keys - {pid};
    }
    assert r.queue.items == s.queue.items[0..];
  }

  /** Each single operation keeps the depot's history append-only. */
  lemma StepFollows(s: State, op: Op, fmt: Formatter)
    ensures Follows(s, Step(s, op, fmt))
  {
    match op
    case ProcessNext => ProcessFollows(s, fmt);
    case Collect(name, id) => CollectFollows(s, name, id, fmt);
  }

  /** Any run of operations keeps the history append-only, with one record per parcel removed. */
  lemma {:induction false} RunFollows(s: State, ops: seq<Op>, fmt: Formatter)
    ensures Follows(s, Run(s, ops, fmt))
    decreases |ops|
  {
    if |ops| == 0 {
      assert s.queue.items[|s.queue.items| - |s.queue.items|..] == s.queue.items;
    } else {
      var s' := Step(s, ops[0], fmt);
      StepFollows(s, ops[0], fmt);
      RunFollows(s', ops[1..], fmt);
      FollowsTransitive(s, s', Run(s', ops[1..], fmt));
    }
  }

  /** A parcel once collected cannot be collected again, whatever case the id is typed in. */
  lemma CollectAtMostOnce(s: State, name: string, id: string, name2: string, id2: string, fmt: Formatter)
    requires CollectParcel(s, name, id, fmt).success
    requires ToUpper(id2) == ToUpper(id)
    ensures !CollectParcel(CollectParcel(s, name, id, fmt).state, name2, id2, fmt).success
  {
  }

  /** A parcel handed out to a queued customer cannot be collected afterwards. */
  lemma ProcessThenCollectFails(s: State, name: string, id: string, fmt: Formatter)
    requires !IsEmpty(s.queue) && ToUpper(s.queue.items[0].desiredId) in s.parcels
    requires ToUpper(id) == ToUpper(s.queue.items[0].desiredId)
    ensures !CollectParcel(ProcessNextCustomer(s, fmt), name, id, fmt).success
  {
  }

  /** No operation puts a parcel back: an id absent from the table stays absent and every collection of it fails. */
  lemma {:induction false} GoneStaysGone(s: State, ops: seq<Op>, k: string, fmt: Formatter)
    requires k !in s.parcels
    ensures k !in Run(s, ops, fmt).parcels
    ensures forall i :: 0 <= i < |ops| && ops[i].Collect? && ToUpper(ops[i].parcelId) == k ==>
              !CollectParcel(Run(s, ops[..i], fmt), ops[i].customerName, ops[i].parcelId, fmt).success
    decreases |ops|
  {
    RunFollows(s, ops, fmt);
    forall i | 0 <= i < |ops| && ops[i].Collect? && ToUpper(ops[i].parcelId) == k
      ensures !CollectParcel(Run(s, ops[..i], fmt), ops[i].customerName, ops[i].parcelId, fmt).success
    {
      RunFollows(s, ops[..i], fmt);
    }
  }

  function Repeat(op: Op, n: nat): (r: seq<Op>)
    ensures |r| == n && forall i :: 0 <= i < n ==> r[i] == op
  {
    if n == 0 then [] else [op] + Repeat(op, n - 1)
  }

  /**
   * The batch loop (process the next customer while the queue is not empty) ends
   * after exactly one step per waiting customer, with the queue empty.
   */
  lemma {:induction false} DrainEmptiesQueue(s: State, fmt: Formatter)
    ensures IsEmpty(Run(s, Repeat(ProcessNext, |s.queue.items|), fmt).queue)
    decreases |s.queue.items|
  {
    var n := |s.queue.items|;
    if n > 0 {
      var s' := ProcessNextCustomer(s, fmt);
      assert Repeat(ProcessNext, n)[1..] == Repeat(ProcessNext, n - 1);
      DrainEmptiesQueue(s', fmt);
    }
  }

  /** Classifying the lines of two files one after the other is classifying each file. */
  lemma {:induction false} OutcomesAppend(a: seq<string>, b: seq<string>, parse: Parsers)
    ensures ParcelOutcomes(a + b, parse) == ParcelOutcomes(a, parse) + ParcelOutcomes(b, parse)
    decreases |a|
  {
    if |a| == 0 {
      assert a + b == b;
    } else {
      assert (a + b)[0] == a[0];
      assert (a + b)[1..] == a[1..] + b;
      OutcomesAppend(a[1..], b, parse);
      ConcatAssoc([ParcelLine(a[0], parse)], ParcelOutcomes(a[1..], parse), ParcelOutcomes(b, parse));
    }
  }

  /** The outcomes of `before`, then of one line, then of `after`. */
  lemma OutcomesAround(before: seq<string>, x: string, after: seq<string>, parse: Parsers)
    ensures ParcelOutcomes(before + [x] + after, parse)
            == ParcelOutcomes(before, parse) + [ParcelLine(x, parse)] + ParcelOutcomes(after, parse)
  {
    OutcomesAppend(before + [x], after, parse);
    OutcomesAppend(before, [x], parse);
    assert ParcelOutcomes([x], parse) == [ParcelLine(x, parse)];
  }

  /** An aborting outcome ends the reading: nothing after it is read. */
  lemma {:induction false} ReadStopsAtAbort(before: seq<ParcelLineOutcome>, after: seq<ParcelLineOutcome>)
    ensures ReadParcels(before + [Aborted] + after) == ReadParcels(before)
    decreases |before|
  {
    var os := before + [Aborted] + after;
    if |before| == 0 {
      assert os[0] == Aborted;
    } else {
      assert os[0] == before[0];
      assert os[1..] == before[1..] + [Aborted] + after;
      ReadStopsAtAbort(before[1..], after);
    }
  }

  /** A skipped outcome reads as if it were not there. */
  lemma {:induction false} ReadPassesSkip(before: seq<ParcelLineOutcome>, after: seq<ParcelLineOutcome>)
    ensures ReadParcels(before + [Skipped] + after) == ReadParcels(before + after)
    decreases |before|
  {
    var os := before + [Skipped] + after;
    if |before| == 0 {
      assert os[0] == Skipped;
      assert os[1..] == before + after;
    } else {
      assert os[0] == (before + after)[0];
      assert os[1..] == before[1..] + [Skipped] + after;
      assert (before + after)[1..] == before[1..] + after;
      ReadPassesSkip(before[1..], after);
    }
  }

  /** Outcomes before any abort read one after the other: the parcels of each part, in order. */
  lemma {:induction false} ReadAppend(a: seq<ParcelLineOutcome>, b: seq<ParcelLineOutcome>)
    requires Aborted !in a
    ensures ReadParcels(a + b) == ReadParcels(a) + ReadParcels(b)
    decreases |a|
  {
    if |a| == 0 {
      assert a + b == b;
    } else {
      assert (a + b)[0] == a[0];
      assert (a + b)[1..] == a[1..] + b;
      assert Aborted !in a[1..] by {
        assert forall o :: o in a[1..] ==> o in a;
      }
      ReadAppend(a[1..], b);
      if a[0].Loaded? {
        ConcatAssoc([a[0].parcel], ReadParcels(a[1..]), ReadParcels(b));
      }
    }
  }

  /** A loaded outcome with no abort before it puts its parcel between those before and those after. */
  lemma ReadPassesLoaded(before: seq<ParcelLineOutcome>, p: Parcel, after: seq<ParcelLineOutcome>)
    requires Aborted !in before
    ensures ReadParcels(before + [Loaded(p)] + after) == ReadParcels(before) + [p] + ReadParcels(after)
  {
    var rest := [Loaded(p)] + after;
    assert before + [Loaded(p)] + after == before + rest;
    ReadAppend(before, rest);
    assert rest[1..] == after;
    ConcatAssoc(ReadParcels(before), [p], ReadParcels(after));
  }

  /** The outcome at position `i` is what that line does on its own. */
  lemma {:induction false} OutcomeAt(lines: seq<string>, parse: Parsers, i: nat)
    requires i < |lines|
    ensures ParcelOutcomes(lines, parse)[i] == ParcelLine(lines[i], parse)
    decreases i
  {
    if i > 0 {
      OutcomeAt(lines[1..], parse, i - 1);
      assert lines[1..][i - 1] == lines[i];
    }
  }

  /** The outcome at each position is what that line does on its own. */
  lemma OutcomesAt(lines: seq<string>, parse: Parsers)
    ensures forall i :: 0 <= i < |lines| ==> ParcelOutcomes(lines, parse)[i] == ParcelLine(lines[i], parse)
  {
    forall i | 0 <= i < |lines|
      ensures ParcelOutcomes(lines, parse)[i] == ParcelLine(lines[i], parse)
    {
      OutcomeAt(lines, parse, i);
    }
  }

  /** Lines none of which aborts, as outcomes. */
  lemma NoAbortOutcomes(lines: seq<string>, parse: Parsers)
    requires forall j :: 0 <= j < |lines| ==> !ParcelLine(lines[j], parse).Aborted?
    ensures Aborted !in ParcelOutcomes(lines, parse)
  {
    OutcomesAt(lines, parse);
  }

  /**
   * Two parts of a parcel file, the first with no line that aborts: the load
   * inserts the parcels of the first part, then those of the second.
   */
  lemma LoadedLinesAppend(a: seq<string>, b: seq<string>, parse: Parsers)
    requires forall j :: 0 <= j < |a| ==> !ParcelLine(a[j], parse).Aborted?
    ensures LoadedParcels(a + b, parse) == LoadedParcels(a, parse) + LoadedParcels(b, parse)
  {
    OutcomesAppend(a, b, parse);
    NoAbortOutcomes(a, parse);
    ReadAppend(ParcelOutcomes(a, parse), ParcelOutcomes(b, parse));
  }

  /**
   * A line that loads a parcel, with no aborting line before it: its parcel is
   * inserted after those of the lines before it and before those of the lines after
   * it, so the load keeps file order and every earlier parcel.
   */
  lemma LoadedLineKept(before: seq<string>, x: string, after: seq<string>, parse: Parsers)
    requires forall j :: 0 <= j < |before| ==> !ParcelLine(before[j], parse).Aborted?
    requires ParcelLine(x, parse).Loaded?
    ensures LoadedParcels(before + [x] + after, parse)
            == LoadedParcels(before, parse) + [ParcelLine(x, parse).parcel] + LoadedParcels(after, parse)
  {
    OutcomesAround(before, x, after, parse);
    NoAbortOutcomes(before, parse);
    ReadPassesLoaded(ParcelOutcomes(before, parse), ParcelLine(x, parse).parcel, ParcelOutcomes(after, parse));
  }

  /** Reading the lines of two customer files one after the other is reading each file. */
  lemma RequestsAppend(a: seq<string>, b: seq<string>)
    ensures Requests(a + b) == Requests(a) + Requests(b)
  {
  }

  /** Numbering two runs of requests: the second run numbers on from where the first stopped. */
  lemma {:induction false} NumberedAppend(x: seq<Option<Request>>, y: seq<Option<Request>>, next: int, m: int)
    requires m == next + |Numbered(x, next)|
    ensures Numbered(x + y, next) == Numbered(x, next) + Numbered(y, m)
    decreases |x|
  {
    if |x| == 0 {
      assert x + y == y;
    } else {
      assert (x + y)[0] == x[0];
      assert (x + y)[1..] == x[1..] + y;
      match x[0]
      case None =>
        NumberedAppend(x[1..], y, next, m);
      case Some(q) =>
        NumberedAppend(x[1..], y, next + 1, m);
        ConcatAssoc([Customer(next, q.name, q.parcelId)], Numbered(x[1..], next + 1), Numbered(y, m));
    }
  }

  /** A line that asked for nothing is passed over by the numbering. */
  lemma {:induction false} NumberedSkipsNone(x: seq<Option<Request>>, y: seq<Option<Request>>, next: int)
    ensures Numbered(x + [None] + y, next) == Numbered(x + y, next)
    decreases |x|
  {
    var rs := x + [None] + y;
    if |x| == 0 {
      assert rs[0] == None;
      assert rs[1..] == x + y;
    } else {
      assert rs[0] == (x + y)[0];
      assert rs[1..] == x[1..] + [None] + y;
      assert (x + y)[1..] == x[1..] + y;
      match x[0]
      case None => NumberedSkipsNone(x[1..], y, next);
      case Some(_) => NumberedSkipsNone(x[1..], y, next + 1);
    }
  }

  /** A request after `x` becomes the customer numbered one past those of `x`. */
  lemma NumberedPassesSome(x: seq<Option<Request>>, q: Request, y: seq<Option<Request>>, next: int, m: int)
    requires m == next + |Numbered(x, next)|
    ensures Numbered(x + [Some(q)] + y, next) == Numbered(x, next) + [Customer(m, q.name, q.parcelId)] + Numbered(y, m + 1)
  {
    var rest := [Some(q)] + y;
    assert x + [Some(q)] + y == x + rest;
    NumberedAppend(x, rest, next, m);
    assert rest[1..] == y;
    ConcatAssoc(Numbered(x, next), [Customer(m, q.name, q.parcelId)], Numbered(y, m + 1));
  }

  /** Reading a file around one line: the requests before it, its own, then those after it. */
  lemma RequestsAround(before: seq<string>, line: string, after: seq<string>)
    ensures Requests(before + [line] + after) == Requests(before) + [CustomerRequest(line)] + Requests(after)
  {
  }

  /**
   * Two parts of a customer file: the customers of the first part, then those of
   * the second, numbered on from `m`, one past the accepted lines of the first part.
   */
  lemma CustomersAppend(a: seq<string>, b: seq<string>, next: int, m: int)
    requires m == next + AcceptedLines(a)
    ensures CustomersFrom(a + b, next) == CustomersFrom(a, next) + CustomersFrom(b, m)
  {
    RequestsAppend(a, b);
    NumberedCount(a, next);
    NumberedAppend(Requests(a), Requests(b), next, m);
  }

  /** A first line with a comma becomes customer `n`, and the lines after it number on from `n + 1`. */
  lemma CustomersOfAcceptedHead(line: string, after: seq<string>, n: int)
    requires ',' in line
    ensures CustomersFrom([line] + after, n) == [CustomerLine(line, n).value] + CustomersFrom(after, n + 1)
  {
    RequestsAppend([line], after);
    assert Requests([line] + after)[1..] == Requests(after);
  }

  /**
   * A line with a comma becomes the customer after those of the lines before it,
   * numbered `n`, one past them; the lines after it number on from `n + 1`.
   */
  lemma AcceptedCustomerLineKept(before: seq<string>, line: string, after: seq<string>, next: int, n: int)
    requires ',' in line
    requires n == next + AcceptedLines(before)
    ensures CustomersFrom(before + [line] + after, next)
      == CustomersFrom(before, next) + [CustomerLine(line, n).value] + CustomersFrom(after, n + 1)
  {
    var q := CustomerRequest(line).value;
    RequestsAround(before, line, after);
    NumberedCount(before, next);
    NumberedPassesSome(Requests(before), q, Requests(after), next, n);
  }

  /** A customer line without a comma neither creates a customer nor uses up a sequence number. */
  lemma RejectedCustomerLineIgnored(before: seq<string>, rejected: string, after: seq<string>, next: int)
    requires ',' !in rejected
    ensures CustomersFrom(before + [rejected] + after, next) == CustomersFrom(before + after, next)
  {
    var x := Requests(before);
    var y := Requests(after);
    RequestsAround(before, rejected, after);
    RequestsAppend(before, after);
    NumberedSkipsNone(x, y, next);
    assert CustomersFrom(before + [rejected] + after, next) == Numbered(x + [None] + y, next);
    assert CustomersFrom(before + after, next) == Numbered(x + y, next);
  }

  /** A line that aborts the parcel load hides every line after it. */
  lemma AbortEndsLoad(before: seq<string>, bad: string, after: seq<string>, parse: Parsers)
    requires ParcelLine(bad, parse).Aborted?
    ensures LoadedParcels(before + [bad] + after, parse) == LoadedParcels(before, parse)
  {
    OutcomesAround(before, bad, after, parse);
    ReadStopsAtAbort(ParcelOutcomes(before, parse), ParcelOutcomes(after, parse));
  }

  /** A line with the wrong number of fields leaves the parcel load as if it were not there. */
  lemma SkippedLineIgnored(before: seq<string>, skipped: string, after: seq<string>, parse: Parsers)
    requires ParcelLine(skipped, parse).Skipped?
    ensures LoadedParcels(before + [skipped] + after, parse) == LoadedParcels(before + after, parse)
  {
    OutcomesAround(before, skipped, after, parse);
    OutcomesAppend(before, after, parse);
    ReadPassesSkip(ParcelOutcomes(before, parse), ParcelOutcomes(after, parse));
  }

  /** Every call of `loadCustomers` numbers its customers 1, 2, 3, ... whatever is already queued. */
  lemma LoadNumbersFromOne(s: State, lines: seq<string>, fmt: Formatter)
    ensures var added := LoadCustomers(s, lines, fmt).queue.items[|s.queue.items|..];
      && |added| == AcceptedLines(lines)
      && forall i :: 0 <= i < |added| ==> added[i].seqNo == i + 1
  {
    var r := LoadCustomers(s, lines, fmt);
    assert r.queue.items[|s.queue.items|..] == CustomersFrom(lines, 1);
    CustomersCount(lines, 1);
  }
}
