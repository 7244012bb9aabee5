/** internal/service/reconciliation.go: settlement lines against payment rows. */
module Reconciliation {
  import opened Domain
  import opened MemoryStores

  datatype Line = Line(reference: string, captured: real)

  datatype Reason = UnknownProviderPayment | CapturedAmountMismatch

  datatype Mismatch = Mismatch(reference: string, reason: Reason, expected: real, reported: real)

  // ---------- the order of references ----------

  predicate AtMost(a: string, b: string)
    decreases |a|
  {
    if a == [] then true
    else if b == [] then false
    else a[0] < b[0] || (a[0] == b[0] && AtMost(a[1..], b[1..]))
  }

  // `a` and `b` agree up to `n`, where `a` ends or has the smaller character.
  predicate PrecedesAt(a: string, b: string, n: nat) {
    n <= |a| && n <= |b| && a[..n] == b[..n] && (n == |a| || (n < |b| && a[n] < b[n]))
  }

  lemma SameHead(a: string, b: string, n: nat)
    requires PrecedesAt(a, b, n) && n > 0
    ensures a[0] == b[0]
  {
    assert a[..n][0] == b[..n][0];
  }

  /** The order is that of strings in Go: a prefix comes first, else the first difference decides. */
  lemma {:induction false} AtMostIff(a: string, b: string)
    ensures AtMost(a, b) <==> exists n: nat :: PrecedesAt(a, b, n)
    decreases |a|
  {
    if a == [] {
      assert PrecedesAt(a, b, 0);
    } else if b != [] && a[0] == b[0] {
      AtMostIff(a[1..], b[1..]);
      if AtMost(a, b) {
        var n: nat :| PrecedesAt(a[1..], b[1..], n);
        assert a[..n + 1] == [a[0]] + a[1..][..n] && b[..n + 1] == [b[0]] + b[1..][..n];
        assert PrecedesAt(a, b, n + 1);
      }
      if n: nat :| PrecedesAt(a, b, n) {
        assert n > 0;
        assert a[1..][..n - 1] == a[..n][1..] && b[1..][..n - 1] == b[..n][1..];
        assert PrecedesAt(a[1..], b[1..], n - 1);
      }
    } else if b != [] {
      if AtMost(a, b) {
        assert PrecedesAt(a, b, 0);
      }
      if n: nat :| PrecedesAt(a, b, n) {
        if n > 0 {
          SameHead(a, b, n);
        }
      }
    }
  }

  lemma {:induction false} AtMostTotal(a: string, b: string)
    ensures AtMost(a, b) || AtMost(b, a)
    decreases |a|
  {
    if a != [] && b != [] {
      AtMostTotal(a[1..], b[1..]);
    }
  }

  lemma {:induction false} AtMostTransitive(a: string, b: string, c: string)
    requires AtMost(a, b) && AtMost(b, c)
    ensures AtMost(a, c)
    decreases |a|
  {
    if a != [] && b != [] && c != [] && a[0] == b[0] && b[0] == c[0] {
      AtMostTransitive(a[1..], b[1..], c[1..]);
    }
  }

  predicate Sorted(ms: seq<Mismatch>) {
    forall i, j :: 0 <= i < j < |ms| ==> AtMost(ms[i].reference, ms[j].reference)
  }

  lemma InsertedBag(ms: seq<Mismatch>, x: Mismatch, i: nat)
    requires i <= |ms|
    ensures multiset(ms[..i] + [x] + ms[i..]) == multiset(ms) + multiset{x}
  {
    assert ms == ms[..i] + ms[i..];
  }

  method Insert(sorted: seq<Mismatch>, x: Mismatch) returns (r: seq<Mismatch>)
    requires Sorted(sorted)
    ensures Sorted(r) && multiset(r) == multiset(sorted) + multiset{x}
  {
    var i := |sorted|;
    while i > 0 && !AtMost(sorted[i - 1].reference, x.reference)
      invariant 0 <= i <= |sorted|
      invariant forall j :: i <= j < |sorted| ==> AtMost(x.reference, sorted[j].reference)
    {
      AtMostTotal(sorted[i - 1].reference, x.reference);
      i := i - 1;
    }
    forall j | 0 <= j < i ensures AtMost(sorted[j].reference, x.reference) {
      if j < i - 1 {
        AtMostTransitive(sorted[j].reference, sorted[i - 1].reference, x.reference);
      }
    }
    r := sorted[..i] + [x] + sorted[i..];
    InsertedBag(sorted, x, i);
  }

  method SortByReference(ms: seq<Mismatch>) returns (r: seq<Mismatch>)
    ensures Sorted(r) && multiset(r) == multiset(ms)
  {
    r := [];
    for i := 0 to |ms|
      invariant Sorted(r) && multiset(r) == multiset(ms[..i])
    {
      r := Insert(r, ms[i]);
      assert ms[..i + 1] == ms[..i] + [ms[i]];
    }
    assert ms[..|ms|] == ms;
  }

  // ---------- one line ----------

  // What GetPaymentByProviderReference may answer: any row with the reference, in no fixed order.
  predicate MayAnswer(payments: map<string, Payment>, reference: string, r: Result<Payment>) {
    match r
    case Ok(p) => p in payments.Values && p.providerReference == reference
    case Err(e) => e == NotFound && forall id :: id in payments ==> payments[id].providerReference != reference
  }

  // The mismatch one line reports, given the row that was found for it.
  function Report(line: Line, found: Result<Payment>): seq<Mismatch> {
    if found.Err? then [Mismatch(line.reference, UnknownProviderPayment, 0.0, line.captured)]
    else if found.value.captured != line.captured
    then [Mismatch(line.reference, CapturedAmountMismatch, found.value.captured, line.captured)]
    else []
  }

  // One line with the answer the store gave for it.
  datatype Lookup = Lookup(line: Line, found: Result<Payment>)

  ghost predicate Answers(payments: map<string, Payment>, lines: seq<Line>, lookups: seq<Lookup>) {
    && |lookups| == |lines|
    && forall i :: 0 <= i < |lines| ==>
         lookups[i].line == lines[i] && MayAnswer(payments, lines[i].reference, lookups[i].found)
  }

  ghost function ReportedBy(): Lookup -> multiset<Mismatch> {
    (x: Lookup) => multiset(Report(x.line, x.found))
  }

  // A possible outcome of reconciling `lines`.
  ghost predicate Outcome(payments: map<string, Payment>, lines: seq<Line>, ms: multiset<Mismatch>) {
    exists lookups :: Answers(payments, lines, lookups) && ms == Bag(lookups, ReportedBy())
  }

  lemma AnswersExtend(payments: map<string, Payment>, lines: seq<Line>, lookups: seq<Lookup>, found: Result<Payment>)
    requires |lookups| < |lines| && Answers(payments, lines[..|lookups|], lookups)
    requires MayAnswer(payments, lines[|lookups|].reference, found)
    ensures Answers(payments, lines[..|lookups| + 1], lookups + [Lookup(lines[|lookups|], found)])
  {
  }

  method Reconcile(store: MemoryStore, lines: seq<Line>) returns (mismatches: seq<Mismatch>)
    ensures Sorted(mismatches)
    ensures Outcome(store.payments, lines, multiset(mismatches))
  {
    mismatches := [];
    ghost var lookups: seq<Lookup> := [];
    for i := 0 to |lines|
      invariant |lookups| == i && Answers(store.payments, lines[..i], lookups)
      invariant multiset(mismatches) == Bag(lookups, ReportedBy())
    {
      var line := lines[i];
      var payment := store.GetPaymentByProviderReference(line.reference);
      AnswersExtend(store.payments, lines, lookups, payment);
      BagLast(lookups, Lookup(line, payment), ReportedBy());
      lookups := lookups + [Lookup(line, payment)];
      if payment.Err? {
        mismatches := mismatches + [Mismatch(line.reference, UnknownProviderPayment, 0.0, line.captured)];
        continue;
      }
      if payment.value.captured != line.captured {
        mismatches := mismatches + [Mismatch(line.reference, CapturedAmountMismatch, payment.value.captured,
                                             line.captured)];
      }
    }
    assert lines[..|lines|] == lines;
    mismatches := SortByReference(mismatches);
  }

  // ---------- bags gathered from a sequence ----------

  ghost function Bag<T, U>(xs: seq<T>, f: T -> multiset<U>): multiset<U> {
    if xs == [] then multiset{} else Bag(xs[..|xs| - 1], f) + f(xs[|xs| - 1])
  }

  lemma BagLast<T, U>(xs: seq<T>, x: T, f: T -> multiset<U>)
    ensures Bag(xs + [x], f) == Bag(xs, f) + f(x)
  {
    assert (xs + [x])[..|xs|] == xs;
  }

  lemma {:induction false} BagAppend<T, U>(xs: seq<T>, ys: seq<T>, f: T -> multiset<U>)
    ensures Bag(xs + ys, f) == Bag(xs, f) + Bag(ys, f)
  {
    if ys == [] {
      assert xs + ys == xs;
    } else {
      var n := |ys| - 1;
      BagAppend(xs, ys[..n], f);
      assert (xs + ys)[..|xs + ys| - 1] == xs + ys[..n];
    }
  }

  lemma BagsCommute<T>(x: multiset<T>, y: multiset<T>, z: multiset<T>)
    ensures x + y + z == x + z + y
  {
  }

  lemma BagMiddle<T, U>(before: seq<T>, x: T, after: seq<T>, f: T -> multiset<U>)
    ensures Bag(before + [x] + after, f) == Bag(before + after, f) + f(x)
  {
    BagAppend(before + [x], after, f);
    BagLast(before, x, f);
    BagAppend(before, after, f);
    BagsCommute(Bag(before, f), f(x), Bag(after, f));
  }

  lemma BagWithout<T, U>(xs: seq<T>, i: nat, f: T -> multiset<U>)
    requires i < |xs|
    ensures Bag(xs, f) == Bag(xs[..i] + xs[i + 1..], f) + f(xs[i])
  {
    assert xs == xs[..i] + [xs[i]] + xs[i + 1..];
    BagMiddle(xs[..i], xs[i], xs[i + 1..], f);
  }

  lemma {:induction false} BagCongruent<S, T, U>(xs: seq<S>, ys: seq<T>, f: S -> multiset<U>, g: T -> multiset<U>)
    requires |xs| == |ys| && forall i :: 0 <= i < |xs| ==> f(xs[i]) == g(ys[i])
    ensures Bag(xs, f) == Bag(ys, g)
  {
    if xs != [] {
      BagCongruent(xs[..|xs| - 1], ys[..|ys| - 1], f, g);
    }
  }

  lemma MultisetWithout<T>(xs: seq<T>, i: nat)
    requires i < |xs|
    ensures multiset(xs[..i] + xs[i + 1..]) == multiset(xs) - multiset{xs[i]}
  {
    assert xs == xs[..i] + [xs[i]] + xs[i + 1..];
  }

  lemma SameWithout<T>(xs: seq<T>, ys: seq<T>, i: nat)
    requires xs != [] && i < |ys| && ys[i] == xs[0] && multiset(xs) == multiset(ys)
    ensures multiset(xs[..0] + xs[1..]) == multiset(ys[..i] + ys[i + 1..])
  {
    MultisetWithout(xs, 0);
    MultisetWithout(ys, i);
  }

  lemma {:induction false} BagShuffle<T, U>(xs: seq<T>, ys: seq<T>, f: T -> multiset<U>)
    requires multiset(xs) == multiset(ys)
    ensures Bag(xs, f) == Bag(ys, f)
    decreases |xs|
  {
    if xs == [] {
      assert |multiset(ys)| == 0;
    } else {
      assert xs[0] in multiset(ys);
      var i :| 0 <= i < |ys| && ys[i] == xs[0];
      SameWithout(xs, ys, i);
      BagWithout(xs, 0, f);
      BagWithout(ys, i, f);
      BagShuffle(xs[..0] + xs[1..], ys[..i] + ys[i + 1..], f);
    }
  }

  lemma {:induction false} BagEmptyIff<T, U>(xs: seq<T>, f: T -> multiset<U>)
    ensures Bag(xs, f) == multiset{} <==> forall i :: 0 <= i < |xs| ==> f(xs[i]) == multiset{}
  {
    if xs != [] {
      var n := |xs| - 1;
      BagEmptyIff(xs[..n], f);
      assert |Bag(xs, f)| == |Bag(xs[..n], f)| + |f(xs[n])|;
      assert forall i :: 0 <= i < n ==> xs[..n][i] == xs[i];
    }
  }

  lemma BagsDiffer<T>(base: multiset<T>, x: multiset<T>, y: multiset<T>)
    requires x != y
    ensures base + x != base + y
  {
    assert x == base + x - base && y == base + y - base;
  }

  // Replacing one element by elements with different bags gives different bags.
  lemma BagReplaced<T, U>(xs: seq<T>, i: nat, x: T, y: T, f: T -> multiset<U>)
    requires i < |xs| && f(x) != f(y)
    ensures Bag(xs[i := x], f) != Bag(xs[i := y], f)
  {
    var rest := xs[..i] + xs[i + 1..];
    assert xs[i := x][..i] + xs[i := x][i + 1..] == rest == xs[i := y][..i] + xs[i := y][i + 1..];
    BagWithout(xs[i := x], i, f);
    BagWithout(xs[i := y], i, f);
    BagsDiffer(Bag(rest, f), f(x), f(y));
  }

  // ---------- when the result is determined ----------

  // All rows with the reference captured the same amount; true in particular of a reference that
  // at most one row has.
  predicate Unambiguous(payments: map<string, Payment>, reference: string) {
    forall id, other :: id in payments && other in payments
                        && payments[id].providerReference == reference && payments[other].providerReference == reference
                        ==> payments[id].captured == payments[other].captured
  }

  ghost function SomeAnswer(payments: map<string, Payment>, reference: string): (r: Result<Payment>)
    ensures MayAnswer(payments, reference, r)
  {
    if exists id :: id in payments && payments[id].providerReference == reference then
      var id :| id in payments && payments[id].providerReference == reference;
      assert payments[id] in payments.Values;
      Ok(payments[id])
    else Err(NotFound)
  }

  // What reconciling ought to report for a line.
  ghost function Owed(payments: map<string, Payment>, line: Line): multiset<Mismatch> {
    multiset(Report(line, SomeAnswer(payments, line.reference)))
  }

  ghost function OwedBy(payments: map<string, Payment>): Line -> multiset<Mismatch> {
    (line: Line) => Owed(payments, line)
  }

  ghost function AllOwed(payments: map<string, Payment>, lines: seq<Line>): multiset<Mismatch> {
    Bag(lines, OwedBy(payments))
  }

  lemma ReportDetermined(payments: map<string, Payment>, line: Line, found: Result<Payment>)
    requires Unambiguous(payments, line.reference) && MayAnswer(payments, line.reference, found)
    ensures multiset(Report(line, found)) == Owed(payments, line)
  {
    var other := SomeAnswer(payments, line.reference);
    if found.Ok? {
      var id :| id in payments && payments[id] == found.value;
      if other.Ok? {
        var id' :| id' in payments && payments[id'] == other.value;
      }
    }
  }

  lemma OutcomeDetermined(payments: map<string, Payment>, lines: seq<Line>, ms: multiset<Mismatch>)
    requires Outcome(payments, lines, ms)
    requires forall i :: 0 <= i < |lines| ==> Unambiguous(payments, lines[i].reference)
    ensures ms == AllOwed(payments, lines)
  {
    var lookups: seq<Lookup> :| Answers(payments, lines, lookups) && ms == Bag(lookups, ReportedBy());
    forall i | 0 <= i < |lines| ensures ReportedBy()(lookups[i]) == OwedBy(payments)(lines[i]) {
      ReportDetermined(payments, lines[i], lookups[i].found);
    }
    BagCongruent(lookups, lines, ReportedBy(), OwedBy(payments));
  }

  ghost function SomeLookups(payments: map<string, Payment>, lines: seq<Line>): (lookups: seq<Lookup>)
    ensures Answers(payments, lines, lookups)
  {
    seq(|lines|, i requires 0 <= i < |lines| => Lookup(lines[i], SomeAnswer(payments, lines[i].reference)))
  }

  lemma ReportsDiffer(line: Line, p: Payment, q: Payment)
    requires p.captured != q.captured
    ensures multiset(Report(line, Ok(p))) != multiset(Report(line, Ok(q)))
  {
    var x := Mismatch(line.reference, CapturedAmountMismatch, p.captured, line.captured);
    var y := Mismatch(line.reference, CapturedAmountMismatch, q.captured, line.captured);
    if p.captured != line.captured {
      assert x in multiset(Report(line, Ok(p))) && x !in multiset(Report(line, Ok(q)));
    } else {
      assert y in multiset(Report(line, Ok(q))) && y !in multiset(Report(line, Ok(p)));
    }
  }

  // If line `i` was answered with row `id`, this is an outcome.
  lemma OutcomeWith(payments: map<string, Payment>, lines: seq<Line>, lookups: seq<Lookup>, i: nat, id: string)
    requires Answers(payments, lines, lookups) && i < |lines|
    requires id in payments && payments[id].providerReference == lines[i].reference
    ensures Outcome(payments, lines, Bag(lookups[i := Lookup(lines[i], Ok(payments[id]))], ReportedBy()))
  {
    assert payments[id] in payments.Values;
    var replaced := lookups[i := Lookup(lines[i], Ok(payments[id]))];
    assert Answers(payments, lines, replaced);
  }

  lemma OutcomesDiffer(line: Line, lookups: seq<Lookup>, i: nat, p: Payment, q: Payment)
    requires i < |lookups| && p.captured != q.captured
    ensures Bag(lookups[i := Lookup(line, Ok(p))], ReportedBy()) != Bag(lookups[i := Lookup(line, Ok(q))], ReportedBy())
  {
    ReportsDiffer(line, p, q);
    BagReplaced(lookups, i, Lookup(line, Ok(p)), Lookup(line, Ok(q)), ReportedBy());
  }

  lemma AmbiguousLineSplits(payments: map<string, Payment>, lines: seq<Line>, i: nat)
    requires i < |lines| && !Unambiguous(payments, lines[i].reference)
    ensures exists ms, ns :: Outcome(payments, lines, ms) && Outcome(payments, lines, ns) && ms != ns
  {
    var id, other :| id in payments && other in payments
                  && payments[id].providerReference == lines[i].reference == payments[other].providerReference
                  && payments[id].captured != payments[other].captured;
    var lookups := SomeLookups(payments, lines);
    OutcomeWith(payments, lines, lookups, i, id);
    OutcomeWith(payments, lines, lookups, i, other);
    OutcomesDiffer(lines[i], lookups, i, payments[id], payments[other]);
  }

  /** The mismatches are determined by the store and the lines exactly when no reference named in a
      line belongs to rows that captured different amounts. */
  lemma DeterminedIff(payments: map<string, Payment>, lines: seq<Line>)
    ensures (forall ms, ns :: Outcome(payments, lines, ms) && Outcome(payments, lines, ns) ==> ms == ns)
       <==> forall i :: 0 <= i < |lines| ==> Unambiguous(payments, lines[i].reference)
  {
    if forall i :: 0 <= i < |lines| ==> Unambiguous(payments, lines[i].reference) {
      forall ms | Outcome(payments, lines, ms) ensures ms == AllOwed(payments, lines) {
        OutcomeDetermined(payments, lines, ms);
      }
    } else {
      var i :| 0 <= i < |lines| && !Unambiguous(payments, lines[i].reference);
      AmbiguousLineSplits(payments, lines, i);
    }
  }

  // The line names a payment and reports what it captured.
  predicate Agrees(payments: map<string, Payment>, line: Line) {
    exists id :: && id in payments && payments[id].providerReference == line.reference
                 && payments[id].captured == line.captured
  }

  lemma OwedNothingIff(payments: map<string, Payment>, line: Line)
    requires Unambiguous(payments, line.reference)
    ensures Owed(payments, line) == multiset{} <==> Agrees(payments, line)
  {
    var r := SomeAnswer(payments, line.reference);
    if r.Ok? {
      var id :| id in payments && payments[id] == r.value;
      if Agrees(payments, line) {
        var other :| && other in payments && payments[other].providerReference == line.reference
                     && payments[other].captured == line.captured;
        assert payments[id].captured == payments[other].captured;
      }
    }
  }

  /** Nothing is owed exactly when every line agrees. */
  lemma AllOwedNothingIff(payments: map<string, Payment>, lines: seq<Line>)
    requires forall i :: 0 <= i < |lines| ==> Unambiguous(payments, lines[i].reference)
    ensures AllOwed(payments, lines) == multiset{} <==> forall i :: 0 <= i < |lines| ==> Agrees(payments, lines[i])
  {
    BagEmptyIff(lines, OwedBy(payments));
    forall i | 0 <= i < |lines| ensures OwedBy(payments)(lines[i]) == multiset{} <==> Agrees(payments, lines[i]) {
      OwedNothingIff(payments, lines[i]);
    }
  }

  // ---------- the mismatches, counted ----------

  // What the line must be reported as, said without the code that reports it: an unknown reference with
  // nothing expected, or a row with the reference whose captured amount differs from the reported one.
  ghost predicate Calls(payments: map<string, Payment>, line: Line, m: Mismatch) {
    && m.reference == line.reference && m.reported == line.captured
    && match m.reason
       case UnknownProviderPayment =>
         m.expected == 0.0 && forall id :: id in payments ==> payments[id].providerReference != line.reference
       case CapturedAmountMismatch =>
         m.expected != line.captured
         && exists id :: id in payments && payments[id].providerReference == line.reference
                         && payments[id].captured == m.expected
  }

  ghost function CallingLines(payments: map<string, Payment>, lines: seq<Line>, m: Mismatch): set<nat> {
    set i: nat | i < |lines| && Calls(payments, lines[i], m)
  }

  lemma OwedWhenCalled(payments: map<string, Payment>, line: Line, m: Mismatch)
    requires Unambiguous(payments, line.reference)
    ensures Owed(payments, line)[m] == if Calls(payments, line, m) then 1 else 0
  {
    var r := SomeAnswer(payments, line.reference);
    if r.Ok? {
      var id :| id in payments && payments[id] == r.value;
      assert forall x :: x in payments && payments[x].providerReference == line.reference ==>
               payments[x].captured == r.value.captured;
    }
  }

  lemma CallingLast(payments: map<string, Payment>, lines: seq<Line>, line: Line, m: Mismatch)
    ensures |CallingLines(payments, lines + [line], m)|
         == |CallingLines(payments, lines, m)| + if Calls(payments, line, m) then 1 else 0
  {
    var all := lines + [line];
    assert CallingLines(payments, all, m)
      == CallingLines(payments, lines, m) + if Calls(payments, line, m) then {|lines|} else {};
  }

  lemma {:induction false} OwedCounted(payments: map<string, Payment>, lines: seq<Line>, m: Mismatch)
    requires forall i :: 0 <= i < |lines| ==> Unambiguous(payments, lines[i].reference)
    ensures AllOwed(payments, lines)[m] == |CallingLines(payments, lines, m)|
  {
    if lines == [] {
      assert CallingLines(payments, lines, m) == {};
    } else {
      var before, last := lines[..|lines| - 1], lines[|lines| - 1];
      assert lines == before + [last];
      OwedCounted(payments, before, m);
      BagLast(before, last, OwedBy(payments));
      CallingLast(payments, before, last, m);
      OwedWhenCalled(payments, last, m);
    }
  }

  /** Under the condition that `DeterminedIff` shows to be necessary, reconciling reports exactly what
      is owed: every mismatch as often as there are lines that call for it and nothing else, so nothing
      if and only if every line agrees with its payment, and the same whatever the order of the lines.
      Rows that no line names may share references as they like, as created and
      failed payments do. */
  lemma ReconciliationIsExact(payments: map<string, Payment>, lines: seq<Line>, shuffled: seq<Line>,
                              ms: multiset<Mismatch>, ns: multiset<Mismatch>)
    requires forall i :: 0 <= i < |lines| ==> Unambiguous(payments, lines[i].reference)
    requires multiset(lines) == multiset(shuffled)
    requires Outcome(payments, lines, ms) && Outcome(payments, shuffled, ns)
    ensures ms == ns
    ensures forall m :: ms[m] == |CallingLines(payments, lines, m)|
    ensures ms == multiset{} <==> forall i :: 0 <= i < |lines| ==> Agrees(payments, lines[i])
  {
    forall i | 0 <= i < |shuffled| ensures Unambiguous(payments, shuffled[i].reference) {
      assert shuffled[i] in multiset(shuffled);
      assert shuffled[i] in lines;
    }
    OutcomeDetermined(payments, lines, ms);
    OutcomeDetermined(payments, shuffled, ns);
    BagShuffle(lines, shuffled, OwedBy(payments));
    AllOwedNothingIff(payments, lines);
    forall m ensures ms[m] == |CallingLines(payments, lines, m)| {
      OwedCounted(payments, lines, m);
    }
  }
}
