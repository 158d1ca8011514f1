/** Receiving boxes at the dock: confirm, transporter sign-off, late arrival and completion, with an
    exception log that has to agree with the state of the cartons. */
module RfReceiving {
  import opened Wrappers
  import opened Text

  datatype CartonStatus = Expected | Pending | Missing | Received | Accounted | Verified | Excepted | Rejected | Excess

  datatype Carton = Carton(no: string, isExpected: bool, status: CartonStatus)

  datatype Kind = MissingBox | Damage | ItemShortage | ItemExcess

  datatype Exception = Exception(kind: Kind, box: string, open: bool)

  datatype Event =
    | BoxReceived(box: string) | BoxDamaged(box: string) | LateArrival(box: string) | BoxMissing(box: string)
    | BoxVerified(box: string) | TransportSigned

  datatype Phase =
    | Draft | Receiving | BoxReconciliation | ItemVerification | ItemVerificationComplete | ExceptionPending
    | PutawayPending | PutawayInProgress | PartiallyReceived | Completed

  datatype Session = Session(
    phase: Phase, cartons: seq<Carton>, boxesTotal: nat, exceptions: seq<Exception>, events: seq<Event>)

  datatype LineCheck = LineCheck(expected: real, scanned: real)

  datatype Error = SessionClosed | NotOnPackingList | NothingReceived

  datatype Step = Confirm(box: string, damaged: bool) | SignOff | Complete(box: string, lines: seq<LineCheck>)

  // Lookups and counters

  /** How box numbers are compared: blanks around them and case do not matter. */
  function Norm(no: string): string { Lower(BlankTrim(no)) }

  function FindCarton(cartons: seq<Carton>, key: string): (r: Option<nat>)
    ensures r.Some? ==> r.value < |cartons| && Norm(cartons[r.value].no) == key
    ensures r.Some? ==> forall i :: 0 <= i < r.value ==> Norm(cartons[i].no) != key
    ensures r.None? ==> forall i :: 0 <= i < |cartons| ==> Norm(cartons[i].no) != key
  {
    if |cartons| == 0 then None
    else
      var last := |cartons| - 1;
      match FindCarton(cartons[..last], key)
      case Some(i) => Some(i)
      case None => if Norm(cartons[last].no) == key then Some(last) else None
  }

  predicate CountsAsReceived(c: CartonStatus) { c == Received || c == Verified || c == Accounted || c == Excepted }

  /** Already counted at the dock. */
  predicate IsDuplicate(c: CartonStatus) {
    c == Received || c == Accounted || c == Verified || c == Rejected || c == Excepted || c == Excess
  }

  function ReceivedCount(cartons: seq<Carton>, n: nat): nat
    requires n <= |cartons|
  {
    if n == 0 then 0 else ReceivedCount(cartons, n - 1) + if CountsAsReceived(cartons[n - 1].status) then 1 else 0
  }

  function VerifiedCount(cartons: seq<Carton>, n: nat): nat
    requires n <= |cartons|
  {
    if n == 0 then 0 else VerifiedCount(cartons, n - 1) + if cartons[n - 1].status == Verified then 1 else 0
  }

  function BoxTotal(s: Session): nat { if s.boxesTotal > |s.cartons| then s.boxesTotal else |s.cartons| }

  predicate SignedOff(p: Phase) {
    p == ItemVerification || p == ItemVerificationComplete || p == ExceptionPending || p == PutawayPending
    || p == PutawayInProgress || p == PartiallyReceived || p == Completed
  }

  predicate IsOpenMissing(e: Exception, key: string) { e.kind == MissingBox && e.open && Norm(e.box) == key }

  /** Open missing-box exceptions for a box number. */
  function OpenFor(exceptions: seq<Exception>, key: string): nat {
    if |exceptions| == 0 then 0
    else OpenFor(exceptions[..|exceptions| - 1], key) + if IsOpenMissing(exceptions[|exceptions| - 1], key) then 1
        else 0
  }

  function Resolve(exceptions: seq<Exception>, key: string): (r: seq<Exception>)
    ensures |r| == |exceptions|
  {
    seq(|exceptions|, (i: int) requires 0 <= i < |exceptions| =>
      if IsOpenMissing(exceptions[i], key) then exceptions[i].(open := false) else exceptions[i])
  }

  // The handlers

  function ConfirmBox(s: Session, box: string, damaged: bool): Result<Session, Error> {
    if s.phase == Completed then Err(SessionClosed)
    else match FindCarton(s.cartons, Norm(Trim(box)))
      case None => Err(NotOnPackingList)
      case Some(i) =>
        var c := s.cartons[i];
        if c.status == Verified || IsDuplicate(c.status) then Ok(s)
        else
          var event := if damaged then BoxDamaged(Trim(box)) else if c.status == Missing then LateArrival(Trim(box))
              else BoxReceived(Trim(box));
          var resolved := if c.status == Missing then Resolve(s.exceptions, Norm(Trim(box))) else s.exceptions;
          Ok(s.(cartons := s.cartons[i := c.(status := Received)],
                exceptions := resolved + if damaged then [Exception(Damage, c.no, true)] else [],
                events := s.events + [event]))
  }

  predicate Unsigned(c: Carton) {
    c.isExpected && (c.status == Expected || c.status == Pending) && c.no != "CONSOLIDATED"
  }

  function MarkMissing(cartons: seq<Carton>): (r: seq<Carton>)
    ensures |r| == |cartons|
  {
    seq(|cartons|, (i: int) requires 0 <= i < |cartons| => if Unsigned(cartons[i]) then cartons[i].(status := Missing)
        else cartons[i])
  }

  function MissingExceptions(cartons: seq<Carton>, n: nat): seq<Exception>
    requires n <= |cartons|
  {
    if n == 0 then []
    else MissingExceptions(cartons, n - 1) + if Unsigned(cartons[n - 1]) then
        [Exception(MissingBox, cartons[n - 1].no, true)] else []
  }

  function MissingEvents(cartons: seq<Carton>, n: nat): seq<Event>
    requires n <= |cartons|
  {
    if n == 0 then [] else MissingEvents(cartons, n - 1) + if Unsigned(cartons[n - 1]) then
        [BoxMissing(cartons[n - 1].no)] else []
  }

  function SignOffBoxes(s: Session): Result<Session, Error> {
    if s.phase == Completed then Err(SessionClosed)
    else if ReceivedCount(s.cartons, |s.cartons|) < 1 then Err(NothingReceived)
    else if SignedOff(s.phase) then Ok(s)
    else
      var n := |s.cartons|;
      Ok(s.(phase := ItemVerification, cartons := MarkMissing(s.cartons),
            exceptions := s.exceptions + MissingExceptions(s.cartons, n),
            events := s.events + MissingEvents(s.cartons, n) + [TransportSigned]))
  }

  /** What a line of a completed box adds to the log. */
  function VarianceOf(box: string, l: LineCheck): (r: seq<Exception>)
    ensures |r| <= 1
  {
    if l.scanned < l.expected then [Exception(ItemShortage, box, true)]
    else if l.scanned > l.expected then [Exception(ItemExcess, box, true)]
    else []
  }

  function Variances(box: string, lines: seq<LineCheck>): seq<Exception> {
    if |lines| == 0 then []
    else Variances(box, lines[..|lines| - 1]) + VarianceOf(box, lines[|lines| - 1])
  }

  predicate AnyOpen(exceptions: seq<Exception>) { exists i :: 0 <= i < |exceptions| && exceptions[i].open }

  function CompleteBox(s: Session, box: string, lines: seq<LineCheck>): Result<Session, Error> {
    if s.phase == Completed then Err(SessionClosed)
    else match FindCarton(s.cartons, Norm(box))
      case None => Err(NotOnPackingList)
      case Some(i) =>
        if s.cartons[i].status == Verified then Ok(s)
        else
          var cartons := s.cartons[i := s.cartons[i].(status := Verified)];
          var exceptions := s.exceptions + Variances(box, lines);
          var all := BoxTotal(s) > 0 && VerifiedCount(cartons, |cartons|) >= BoxTotal(s);
          Ok(s.(cartons := cartons, exceptions := exceptions, events := s.events + [BoxVerified(box)],
                phase := if !all then s.phase else if AnyOpen(exceptions) then ExceptionPending else PutawayPending))
  }

  function Apply(s: Session, step: Step): Result<Session, Error> {
    match step
    case Confirm(box, damaged) => ConfirmBox(s, box, damaged)
    case SignOff => SignOffBoxes(s)
    case Complete(box, lines) => CompleteBox(s, box, lines)
  }

  function Next(s: Session, step: Step): Session {
    match Apply(s, step)
    case Ok(t) => t
    case Err(_) => s
  }

  function Run(s: Session, steps: seq<Step>): Session {
    if |steps| == 0 then s else Next(Run(s, steps[..|steps| - 1]), steps[|steps| - 1])
  }

  // What every step keeps

  /** No other carton has this one's number; nothing in the table keeps two from sharing one. */
  ghost predicate Alone(cartons: seq<Carton>, i: nat)
    requires i < |cartons|
  {
    forall j :: 0 <= j < |cartons| && j != i ==> Norm(cartons[j].no) != Norm(cartons[i].no)
  }

  ghost predicate CartonTracked(c: Carton, exceptions: seq<Exception>) {
    var n := OpenFor(exceptions, Norm(c.no));
    && (c.status == Missing ==> n == 1)
    && (c.status == Expected || c.status == Pending || c.status == Received ==> n == 0)
    && n <= 1
  }

  ghost predicate AllTracked(s: Session) {
    forall i :: 0 <= i < |s.cartons| ==> CartonTracked(s.cartons[i], s.exceptions)
  }

  /** The exception log agrees with every carton that has a number of its own. */
  ghost predicate Tracked(s: Session) {
    forall i :: 0 <= i < |s.cartons| && Alone(s.cartons, i) ==> CartonTracked(s.cartons[i], s.exceptions)
  }

  /** The carton a scan of its number finds. */
  ghost predicate First(cartons: seq<Carton>, i: nat)
    requires i < |cartons|
  {
    forall j :: 0 <= j < i ==> Norm(cartons[j].no) != Norm(cartons[i].no)
  }

  ghost predicate MissingLogged(c: Carton, exceptions: seq<Exception>) {
    c.status == Missing ==> OpenFor(exceptions, Norm(c.no)) > 0
  }

  /** A missing carton that a scan would find is logged as missing, whoever shares its number. */
  ghost predicate FirstLogged(s: Session) {
    forall i :: 0 <= i < |s.cartons| && First(s.cartons, i) ==> MissingLogged(s.cartons[i], s.exceptions)
  }

  function SignedEvents(events: seq<Event>): nat {
    if |events| == 0 then 0 else SignedEvents(events[..|events| - 1]) + if events[|events| - 1].TransportSigned? then
        1 else 0
  }

  ghost predicate NoneOpenYet(exceptions: seq<Exception>) { forall key: string :: OpenFor(exceptions, key) == 0 }

  /** One sign-off at most; before it nothing is missing, after it no expected carton is still waited for. */
  ghost predicate Signed(s: Session) {
    && SignedEvents(s.events) <= 1
    && (SignedEvents(s.events) == 1 ==> SignedOff(s.phase) && forall i :: 0 <= i < |s.cartons| ==>
        !Unsigned(s.cartons[i]))
    && (SignedEvents(s.events) == 0 ==>
          NoneOpenYet(s.exceptions) && forall i :: 0 <= i < |s.cartons| ==> s.cartons[i].status != Missing)
  }

  ghost predicate Good(s: Session) { Tracked(s) && FirstLogged(s) && Signed(s) }

  /** A packing list nobody has touched: every carton expected or pending, nothing logged. */
  ghost predicate Fresh(s: Session) {
    && s.exceptions == [] && s.events == []
    && forall i :: 0 <= i < |s.cartons| ==> s.cartons[i].status == Expected || s.cartons[i].status == Pending
  }

  lemma {:induction false} OpenForAppend(a: seq<Exception>, b: seq<Exception>, key: string)
    ensures OpenFor(a + b, key) == OpenFor(a, key) + OpenFor(b, key)
  {
    if |b| == 0 {
      assert a + b == a;
    } else {
      assert (a + b)[..|a + b| - 1] == a + b[..|b| - 1];
      OpenForAppend(a, b[..|b| - 1], key);
    }
  }

  lemma {:induction false} NoneOpen(a: seq<Exception>, key: string)
    requires forall i :: 0 <= i < |a| ==> !IsOpenMissing(a[i], key)
    ensures OpenFor(a, key) == 0
  {
    if |a| > 0 {
      NoneOpen(a[..|a| - 1], key);
    }
  }

  lemma {:induction false} ResolveOpenFor(a: seq<Exception>, key: string, other: string)
    ensures OpenFor(Resolve(a, key), other) == if other == key then 0 else OpenFor(a, other)
  {
    if |a| > 0 {
      assert Resolve(a, key)[..|a| - 1] == Resolve(a[..|a| - 1], key);
      ResolveOpenFor(a[..|a| - 1], key, other);
    }
  }

  lemma {:induction false} VariancesOpenNothing(box: string, lines: seq<LineCheck>, key: string)
    ensures OpenFor(Variances(box, lines), key) == 0
  {
    if |lines| > 0 {
      VariancesOpenNothing(box, lines[..|lines| - 1], key);
      var l := lines[|lines| - 1];
      var more := if l.scanned < l.expected then [Exception(ItemShortage, box, true)]
                  else if l.scanned > l.expected then [Exception(ItemExcess, box, true)] else [];
      OpenForAppend(Variances(box, lines[..|lines| - 1]), more, key);
      NoneOpen(more, key);
    }
  }

  lemma OneOpen(e: seq<Exception>, key: string)
    requires |e| <= 1
    ensures OpenFor(e, key) == if |e| == 1 && IsOpenMissing(e[0], key) then 1 else 0
  {
    if |e| == 1 {
      assert e[..0] == [];
    }
  }

  function CountMarked(cartons: seq<Carton>, key: string, n: nat): nat
    requires n <= |cartons|
  {
    if n == 0 then 0
    else CountMarked(cartons, key, n - 1) + if Unsigned(cartons[n - 1]) && Norm(cartons[n - 1].no) == key then 1 else 0
  }

  lemma {:induction false} MarkedCount(cartons: seq<Carton>, key: string, n: nat)
    requires n <= |cartons|
    ensures OpenFor(MissingExceptions(cartons, n), key) == CountMarked(cartons, key, n)
  {
    if n > 0 {
      MarkedCount(cartons, key, n - 1);
      var more := if Unsigned(cartons[n - 1]) then [Exception(MissingBox, cartons[n - 1].no, true)] else [];
      OpenForAppend(MissingExceptions(cartons, n - 1), more, key);
      OneOpen(more, key);
    }
  }

  lemma {:induction false} CountMarkedBounds(cartons: seq<Carton>, i: nat, j: nat, n: nat)
    requires n <= |cartons| && i < |cartons| && j < |cartons| && i != j
    ensures CountMarked(cartons, Norm(cartons[i].no), n)
              >= (if i < n && Unsigned(cartons[i]) then 1 else 0)
               + (if j < n && Unsigned(cartons[j]) && Norm(cartons[j].no) == Norm(cartons[i].no) then 1 else 0)
  {
    if n > 0 {
      CountMarkedBounds(cartons, i, j, n - 1);
    }
  }

  lemma {:induction false} CountMarkedExact(cartons: seq<Carton>, i: nat, n: nat)
    requires n <= |cartons| && i < |cartons|
    requires forall j :: 0 <= j < |cartons| && j != i && Unsigned(cartons[j]) ==>
             Norm(cartons[j].no) != Norm(cartons[i].no)
    ensures CountMarked(cartons, Norm(cartons[i].no), n) == if i < n && Unsigned(cartons[i]) then 1 else 0
  {
    if n > 0 {
      CountMarkedExact(cartons, i, n - 1);
    }
  }

  lemma {:induction false} SignedAppend(a: seq<Event>, b: seq<Event>)
    ensures SignedEvents(a + b) == SignedEvents(a) + SignedEvents(b)
  {
    if |b| == 0 {
      assert a + b == a;
    } else {
      assert (a + b)[..|a + b| - 1] == a + b[..|b| - 1];
      SignedAppend(a, b[..|b| - 1]);
    }
  }

  lemma OneEvent(e: seq<Event>)
    requires |e| <= 1
    ensures SignedEvents(e) == if |e| == 1 && e[0].TransportSigned? then 1 else 0
  {
    if |e| == 1 {
      assert e[..0] == [];
    }
  }

  lemma {:induction false} MissingEventsSignNothing(cartons: seq<Carton>, n: nat)
    requires n <= |cartons|
    ensures SignedEvents(MissingEvents(cartons, n)) == 0
  {
    if n > 0 {
      MissingEventsSignNothing(cartons, n - 1);
      var more := if Unsigned(cartons[n - 1]) then [BoxMissing(cartons[n - 1].no)] else [];
      SignedAppend(MissingEvents(cartons, n - 1), more);
      OneEvent(more);
    }
  }

  ghost predicate SameNumbers(a: seq<Carton>, b: seq<Carton>) {
    |a| == |b| && forall j :: 0 <= j < |a| ==> a[j].no == b[j].no
  }

  /** The carton is received, and its missing-box exceptions are resolved if it was missing. */
  ghost predicate ReceivedAt(s: Session, t: Session, i: nat) {
    && i < |s.cartons| && First(s.cartons, i) && !IsDuplicate(s.cartons[i].status)
    && t.cartons == s.cartons[i := s.cartons[i].(status := Received)] && t.phase == s.phase
    && SignedEvents(t.events) == SignedEvents(s.events)
    && forall key: string :: OpenFor(t.exceptions, key)
         == if s.cartons[i].status == Missing && key == Norm(s.cartons[i].no) then 0 else OpenFor(s.exceptions, key)
  }

  /** What confirming a box changes. */
  lemma ConfirmedEffect(s: Session, box: string, damaged: bool) returns (i: nat)
    requires ConfirmBox(s, box, damaged).Ok?
    ensures ConfirmBox(s, box, damaged) == Ok(s) || ReceivedAt(s, ConfirmBox(s, box, damaged).value, i)
  {
    var t, key := ConfirmBox(s, box, damaged).value, Norm(Trim(box));
    i := FindCarton(s.cartons, key).value;
    if t != s {
      assert t.events[..|s.events|] == s.events;
      var base := if s.cartons[i].status == Missing then Resolve(s.exceptions, key) else s.exceptions;
      var more := if damaged then [Exception(Damage, s.cartons[i].no, true)] else [];
      forall other: string ensures OpenFor(base + more, other)
          == if s.cartons[i].status == Missing && other == key then 0 else OpenFor(s.exceptions, other)
      {
        OpenForAppend(base, more, other);
        OneOpen(more, other);
        ResolveOpenFor(s.exceptions, key, other);
      }
    }
  }

  lemma ReceivingKeepsTracked(s: Session, t: Session, i: nat)
    requires Tracked(s) && ReceivedAt(s, t, i)
    ensures Tracked(t)
  {
    assert SameNumbers(s.cartons, t.cartons);
    forall j | 0 <= j < |t.cartons| && Alone(t.cartons, j) ensures CartonTracked(t.cartons[j], t.exceptions) {
      assert Alone(s.cartons, j) && CartonTracked(s.cartons[j], s.exceptions);
    }
  }

  lemma ReceivingKeepsLogged(s: Session, t: Session, i: nat)
    requires FirstLogged(s) && ReceivedAt(s, t, i)
    ensures FirstLogged(t)
  {
    assert SameNumbers(s.cartons, t.cartons);
    forall j | 0 <= j < |t.cartons| && First(t.cartons, j) ensures MissingLogged(t.cartons[j], t.exceptions) {
      assert First(s.cartons, j) && MissingLogged(s.cartons[j], s.exceptions);
    }
  }

  lemma ReceivingKeepsSigned(s: Session, t: Session, i: nat)
    requires Signed(s) && ReceivedAt(s, t, i)
    ensures Signed(t)
  {
  }

  lemma ConfirmKeeps(s: Session, box: string, damaged: bool)
    requires Good(s) && ConfirmBox(s, box, damaged).Ok?
    ensures Good(ConfirmBox(s, box, damaged).value)
  {
    var t := ConfirmBox(s, box, damaged).value;
    var i := ConfirmedEffect(s, box, damaged);
    if t != s {
      ReceivingKeepsTracked(s, t, i);
      ReceivingKeepsLogged(s, t, i);
      ReceivingKeepsSigned(s, t, i);
    }
  }

  /** What a first sign-off changes. */
  lemma SignedEffect(s: Session)
    requires SignOffBoxes(s).Ok? && !SignedOff(s.phase)
    ensures var t := SignOffBoxes(s).value;
            && t.cartons == MarkMissing(s.cartons) && t.phase == ItemVerification
            && SignedEvents(t.events) == SignedEvents(s.events) + 1
            && forall key: string ::
                 OpenFor(t.exceptions, key) == OpenFor(s.exceptions, key) + CountMarked(s.cartons, key, |s.cartons|)
  {
    var n := |s.cartons|;
    SignedAppend(s.events, MissingEvents(s.cartons, n));
    SignedAppend(s.events + MissingEvents(s.cartons, n), [TransportSigned]);
    MissingEventsSignNothing(s.cartons, n);
    OneEvent([TransportSigned]);
    forall key: string
      ensures OpenFor(s.exceptions + MissingExceptions(s.cartons, n), key)
              == OpenFor(s.exceptions, key) + CountMarked(s.cartons, key, n)
    {
      OpenForAppend(s.exceptions, MissingExceptions(s.cartons, n), key);
      MarkedCount(s.cartons, key, n);
    }
  }

  lemma {:induction false} MarkedIsCounted(cartons: seq<Carton>, i: nat, n: nat)
    requires i < n <= |cartons| && Unsigned(cartons[i])
    ensures CountMarked(cartons, Norm(cartons[i].no), n) > 0
  {
    if i < n - 1 {
      MarkedIsCounted(cartons, i, n - 1);
    }
  }

  lemma SignOffKeepsLogged(s: Session)
    requires FirstLogged(s) && SignOffBoxes(s).Ok? && !SignedOff(s.phase)
    ensures FirstLogged(SignOffBoxes(s).value)
  {
    var t := SignOffBoxes(s).value;
    SignedEffect(s);
    assert SameNumbers(s.cartons, t.cartons);
    forall j | 0 <= j < |t.cartons| && First(t.cartons, j) ensures MissingLogged(t.cartons[j], t.exceptions) {
      assert First(s.cartons, j) && MissingLogged(s.cartons[j], s.exceptions);
      if Unsigned(s.cartons[j]) {
        MarkedIsCounted(s.cartons, j, |s.cartons|);
      }
    }
  }

  lemma SignOffKeepsTracked(s: Session)
    requires Tracked(s) && Signed(s) && SignOffBoxes(s).Ok? && !SignedOff(s.phase)
    ensures Tracked(SignOffBoxes(s).value)
  {
    var t := SignOffBoxes(s).value;
    SignedEffect(s);
    assert SameNumbers(s.cartons, t.cartons);
    forall j | 0 <= j < |t.cartons| && Alone(t.cartons, j) ensures CartonTracked(t.cartons[j], t.exceptions) {
      assert Alone(s.cartons, j) && CartonTracked(s.cartons[j], s.exceptions);
      CountMarkedExact(s.cartons, j, |s.cartons|);
    }
  }

  lemma SignOffKeepsSigned(s: Session)
    requires Signed(s) && SignOffBoxes(s).Ok? && !SignedOff(s.phase)
    ensures Signed(SignOffBoxes(s).value)
  {
    SignedEffect(s);
  }

  lemma SignOffKeeps(s: Session)
    requires Good(s) && SignOffBoxes(s).Ok?
    ensures Good(SignOffBoxes(s).value)
  {
    if !SignedOff(s.phase) {
      SignOffKeepsTracked(s);
      SignOffKeepsLogged(s);
      SignOffKeepsSigned(s);
    }
  }

  /** The carton is verified, and no missing-box exception changes. */
  ghost predicate VerifiedAt(s: Session, t: Session, i: nat) {
    && i < |s.cartons| && s.cartons[i].status != Verified
    && t.cartons == s.cartons[i := s.cartons[i].(status := Verified)]
    && (t.phase == s.phase || t.phase == (if AnyOpen(t.exceptions) then ExceptionPending else PutawayPending))
    && SignedEvents(t.events) == SignedEvents(s.events)
    && forall key: string :: OpenFor(t.exceptions, key) == OpenFor(s.exceptions, key)
  }

  /** What completing a box changes, counters aside. */
  lemma CompletedEffect(s: Session, box: string, lines: seq<LineCheck>) returns (i: nat)
    requires CompleteBox(s, box, lines).Ok?
    ensures FindCarton(s.cartons, Norm(box)) == Some(i)
    ensures CompleteBox(s, box, lines) == Ok(s) || VerifiedAt(s, CompleteBox(s, box, lines).value, i)
    ensures i < |s.cartons| && (s.cartons[i].status != Verified ==> VerifiedAt(s, CompleteBox(s, box, lines).value, i))
  {
    var t := CompleteBox(s, box, lines).value;
    i := FindCarton(s.cartons, Norm(box)).value;
    if s.cartons[i].status != Verified {
      assert t.events[..|s.events|] == s.events;
      forall key: string ensures OpenFor(s.exceptions + Variances(box, lines), key) == OpenFor(s.exceptions, key) {
        OpenForAppend(s.exceptions, Variances(box, lines), key);
        VariancesOpenNothing(box, lines, key);
      }
    }
  }

  lemma VerifyingKeepsTracked(s: Session, t: Session, i: nat)
    requires Tracked(s) && VerifiedAt(s, t, i)
    ensures Tracked(t)
  {
    assert SameNumbers(s.cartons, t.cartons);
    forall j | 0 <= j < |t.cartons| && Alone(t.cartons, j) ensures CartonTracked(t.cartons[j], t.exceptions) {
      assert Alone(s.cartons, j) && CartonTracked(s.cartons[j], s.exceptions);
    }
  }

  lemma VerifyingKeepsLogged(s: Session, t: Session, i: nat)
    requires FirstLogged(s) && VerifiedAt(s, t, i)
    ensures FirstLogged(t)
  {
    assert SameNumbers(s.cartons, t.cartons);
    forall j | 0 <= j < |t.cartons| && First(t.cartons, j) ensures MissingLogged(t.cartons[j], t.exceptions) {
      assert First(s.cartons, j) && MissingLogged(s.cartons[j], s.exceptions);
    }
  }

  lemma VerifyingKeepsSigned(s: Session, t: Session, i: nat)
    requires Signed(s) && VerifiedAt(s, t, i)
    ensures Signed(t)
  {
  }

  lemma CompleteKeeps(s: Session, box: string, lines: seq<LineCheck>)
    requires Good(s) && CompleteBox(s, box, lines).Ok?
    ensures Good(CompleteBox(s, box, lines).value)
  {
    var t := CompleteBox(s, box, lines).value;
    var i := CompletedEffect(s, box, lines);
    if t != s {
      VerifyingKeepsTracked(s, t, i);
      VerifyingKeepsLogged(s, t, i);
      VerifyingKeepsSigned(s, t, i);
    }
  }

  /** Over every run from a fresh packing list: of the cartons with a number of their own, a missing one has
      exactly one open exception, and an expected, pending or received one has none; of those that share one,
      the first has an open exception while it is missing; at most one sign-off is logged, before it nothing
      is missing, and after it no expected carton is left expected or pending. */
  lemma {:induction false} RunKeeps(s0: Session, steps: seq<Step>)
    requires Fresh(s0)
    ensures Good(Run(s0, steps))
  {
    if |steps| > 0 {
      var s, step := Run(s0, steps[..|steps| - 1]), steps[|steps| - 1];
      RunKeeps(s0, steps[..|steps| - 1]);
      if Apply(s, step).Ok? {
        match step
        case Confirm(box, damaged) => ConfirmKeeps(s, box, damaged);
        case SignOff => SignOffKeeps(s);
        case Complete(box, lines) => CompleteKeeps(s, box, lines);
      }
    }
  }

  // What the wizard's steps do

  /** Not looked into at the dock yet, or missing: what a scan can still receive. */
  predicate Receivable(c: CartonStatus) { c in {Expected, Pending, Missing} }

  /** Exceptions as a late arrival leaves them: those that waited for the box are resolved. */
  ghost predicate ResolvedFor(a: seq<Exception>, b: seq<Exception>, key: string) {
    && |a| <= |b|
    && forall i :: 0 <= i < |a| ==>
         b[i] == if a[i].kind == MissingBox && a[i].open && Norm(a[i].box) == key then a[i].(open := false) else a[i]
  }

  /** A scan goes through while the session is open and its number is on the list. It receives the first carton with
      that number if that is still to come, resolves what waited for it if it was missing, and logs whether it came
      damaged, late or as usual, with an exception for damage; a carton counted before is left as it is. */
  lemma ConfirmIs(s: Session, box: string, damaged: bool)
    ensures ConfirmBox(s, box, damaged).Ok? <==>
            s.phase != Completed && exists i :: 0 <= i < |s.cartons| && Norm(s.cartons[i].no) == Norm(Trim(box))
    ensures ConfirmBox(s, box, damaged).Ok? ==>
              var t, i := ConfirmBox(s, box, damaged).value, FindCarton(s.cartons, Norm(Trim(box))).value;
              var c := s.cartons[i];
              if !Receivable(c.status) then t == s
              else
                && t.cartons == s.cartons[i := c.(status := Received)]
                && t.phase == s.phase && t.boxesTotal == s.boxesTotal
                && t.events == s.events + [if damaged then BoxDamaged(Trim(box))
                                           else if c.status == Missing then LateArrival(Trim(box))
                                           else BoxReceived(Trim(box))]
                && |t.exceptions| == |s.exceptions| + (if damaged then 1 else 0)
                && (damaged ==> t.exceptions[|s.exceptions|] == Exception(Damage, c.no, true))
                && (if c.status == Missing then ResolvedFor(s.exceptions, t.exceptions, Norm(Trim(box)))
                    else s.exceptions <= t.exceptions)
  {
  }

  lemma {:induction false} CountedIff(cartons: seq<Carton>, n: nat)
    requires n <= |cartons|
    ensures ReceivedCount(cartons, n) > 0 <==>
            exists i :: 0 <= i < n && cartons[i].status in {Received, Verified, Accounted, Excepted}
  {
    if n > 0 {
      CountedIff(cartons, n - 1);
    }
  }

  lemma {:induction false} MissingPaired(cartons: seq<Carton>, n: nat)
    requires n <= |cartons|
    ensures |MissingExceptions(cartons, n)| == |MissingEvents(cartons, n)|
    ensures forall k :: 0 <= k < |MissingExceptions(cartons, n)| ==>
              && MissingExceptions(cartons, n)[k].kind == MissingBox && MissingExceptions(cartons, n)[k].open
              && MissingEvents(cartons, n)[k] == BoxMissing(MissingExceptions(cartons, n)[k].box)
  {
    if n > 0 {
      MissingPaired(cartons, n - 1);
    }
  }

  /** A sign-off goes through while the session is open and at least one box has been received; only the first one
      changes anything. */
  lemma SignOffGoesIff(s: Session)
    ensures SignOffBoxes(s).Ok? <==>
            s.phase != Completed
                && exists i :: 0 <= i < |s.cartons|
                               && s.cartons[i].status in {Received, Verified, Accounted, Excepted}
    ensures SignOffBoxes(s).Ok? && s.phase !in {Draft, Receiving, BoxReconciliation} ==> SignOffBoxes(s) == Ok(s)
  {
    CountedIff(s.cartons, |s.cartons|);
  }

  /** One open missing-box exception and one event for each box reported missing, and the sign-off itself. */
  ghost predicate ReportsMissing(e0: seq<Exception>, v0: seq<Event>, exceptions: seq<Exception>, events: seq<Event>) {
    && e0 <= exceptions && v0 <= events && |events| == |v0| + (|exceptions| - |e0|) + 1
    && events[|events| - 1] == TransportSigned
    && forall k :: |e0| <= k < |exceptions| ==>
         && exceptions[k].kind == MissingBox && exceptions[k].open
         && events[|v0| + k - |e0|] == BoxMissing(exceptions[k].box)
  }

  lemma LogsAppend(
    e0: seq<Exception>, e: seq<Exception>, v0: seq<Event>, v: seq<Event>, exceptions: seq<Exception>,
    events: seq<Event>)
    requires exceptions == e0 + e && events == v0 + v + [TransportSigned] && |e| == |v|
    requires forall k :: 0 <= k < |e| ==> e[k].kind == MissingBox && e[k].open && v[k] == BoxMissing(e[k].box)
    ensures ReportsMissing(e0, v0, exceptions, events)
  {
  }

  /** A carton as the first sign-off leaves it. */
  ghost function AfterSignOff(c: Carton): Carton {
    if c.isExpected && (c.status == Expected || c.status == Pending) && c.no != "CONSOLIDATED"
    then c.(status := Missing) else c
  }

  lemma MarkedAre(cartons: seq<Carton>)
    ensures forall i :: 0 <= i < |cartons| ==> MarkMissing(cartons)[i] == AfterSignOff(cartons[i])
  {
  }

  /** The first sign-off moves the session to item verification and marks as missing every expected carton nobody has
      seen, except the one that stands for consolidated goods, with an exception and an event for each. */
  lemma SignOffIs(s: Session)
    requires SignOffBoxes(s).Ok? && s.phase in {Draft, Receiving, BoxReconciliation}
    ensures var t := SignOffBoxes(s).value;
            && t.phase == ItemVerification && t.boxesTotal == s.boxesTotal && |t.cartons| == |s.cartons|
            && (forall i :: 0 <= i < |s.cartons| ==> t.cartons[i] == AfterSignOff(s.cartons[i]))
            && ReportsMissing(s.exceptions, s.events, t.exceptions, t.events)
            && (forall key: string ::
                  OpenFor(t.exceptions, key) == OpenFor(s.exceptions, key) + CountMarked(s.cartons, key, |s.cartons|))
  {
    var n, t := |s.cartons|, SignOffBoxes(s).value;
    SignedEffect(s);
    MarkedAre(s.cartons);
    MissingPaired(s.cartons, n);
    LogsAppend(s.exceptions, MissingExceptions(s.cartons, n), s.events, MissingEvents(s.cartons, n), t.exceptions,
               t.events);
  }

  const IS_SHORT: LineCheck -> bool := (l: LineCheck) => l.scanned < l.expected
  const IS_OVER: LineCheck -> bool := (l: LineCheck) => l.expected < l.scanned

  function CountWhere(lines: seq<LineCheck>, differs: LineCheck -> bool): nat {
    if |lines| == 0 then 0
    else CountWhere(lines[..|lines| - 1], differs) + if differs(lines[|lines| - 1]) then 1 else 0
  }

  function CountKind(exceptions: seq<Exception>, kind: Kind): nat {
    if |exceptions| == 0 then 0
    else CountKind(exceptions[..|exceptions| - 1], kind)
         + if exceptions[|exceptions| - 1].kind == kind then 1 else 0
  }

  lemma KindsPush(a: seq<Exception>, more: seq<Exception>, kind: Kind)
    requires |more| <= 1
    ensures CountKind(a + more, kind) == CountKind(a, kind) + if |more| == 1 && more[0].kind == kind then 1 else 0
  {
    if |more| == 0 {
      assert a + more == a;
    } else {
      assert (a + more)[..|a|] == a;
    }
  }

  lemma {:induction false} VariancesOpen(box: string, lines: seq<LineCheck>, k: nat)
    requires k < |Variances(box, lines)|
    ensures var e := Variances(box, lines)[k];
            e.box == box && e.open && (e.kind == ItemShortage || e.kind == ItemExcess)
  {
    if k < |Variances(box, lines[..|lines| - 1])| {
      VariancesOpen(box, lines[..|lines| - 1], k);
    }
  }

  lemma LastCounts(box: string, lines: seq<LineCheck>, kind: Kind)
    requires |lines| > 0
    ensures var last := VarianceOf(box, lines[|lines| - 1]);
            CountKind(Variances(box, lines), kind) == CountKind(Variances(box, lines[..|lines| - 1]), kind)
                                                      + if |last| == 1 && last[0].kind == kind then 1 else 0
  {
    KindsPush(Variances(box, lines[..|lines| - 1]), VarianceOf(box, lines[|lines| - 1]), kind);
  }

  /** A completed box gets one exception for each of its lines that was counted short, and one for each that was
      counted over. */
  lemma {:induction false} VariancesAre(box: string, lines: seq<LineCheck>)
    ensures CountKind(Variances(box, lines), ItemShortage) == CountWhere(lines, IS_SHORT)
    ensures CountKind(Variances(box, lines), ItemExcess) == CountWhere(lines, IS_OVER)
  {
    if |lines| > 0 {
      VariancesAre(box, lines[..|lines| - 1]);
      LastCounts(box, lines, ItemShortage);
      LastCounts(box, lines, ItemExcess);
    }
  }

  // Why numbers should not be shared

  /** A carton the log has to say something about: not yet looked into. */
  predicate Awaited(c: CartonStatus) { c == Expected || c == Pending || c == Received || c == Missing }

  /** No carton about to be marked missing shares its number with another that is awaited, missing or received. */
  ghost predicate MarkedShareNothing(cartons: seq<Carton>) {
    forall i, j :: 0 <= i < |cartons| && 0 <= j < |cartons| && i != j ==>
      Unsigned(cartons[j]) && Awaited(cartons[i].status) ==> Norm(cartons[i].no) != Norm(cartons[j].no)
  }

  lemma {:induction false} AtMostOneMarked(cartons: seq<Carton>, i: nat, n: nat)
    requires n <= |cartons| && i < |cartons| && MarkedShareNothing(cartons)
    ensures CountMarked(cartons, Norm(cartons[i].no), n) <= 1
    ensures CountMarked(cartons, Norm(cartons[i].no), n) == 0
              || exists j :: 0 <= j < n && Unsigned(cartons[j]) && Norm(cartons[j].no) == Norm(cartons[i].no)
  {
    if n > 0 {
      AtMostOneMarked(cartons, i, n - 1);
    }
  }

  lemma NothingSharedIsTracked(s: Session, i: nat)
    requires Signed(s) && SignOffBoxes(s).Ok? && !SignedOff(s.phase) && i < |s.cartons| && MarkedShareNothing(s.cartons)
    ensures CartonTracked(SignOffBoxes(s).value.cartons[i], SignOffBoxes(s).value.exceptions)
  {
    SignedEffect(s);
    if Awaited(s.cartons[i].status) {
      CountMarkedExact(s.cartons, i, |s.cartons|);
    } else {
      AtMostOneMarked(s.cartons, i, |s.cartons|);
    }
  }

  lemma SharedIsNotTracked(s: Session, i: nat, j: nat)
    requires Signed(s) && SignOffBoxes(s).Ok? && !SignedOff(s.phase) && i < |s.cartons| && j < |s.cartons| && i != j
    requires Unsigned(s.cartons[j]) && Awaited(s.cartons[i].status) && Norm(s.cartons[i].no) == Norm(s.cartons[j].no)
    ensures !CartonTracked(SignOffBoxes(s).value.cartons[i], SignOffBoxes(s).value.exceptions)
  {
    SignedEffect(s);
    CountMarkedBounds(s.cartons, i, j, |s.cartons|);
  }

  /** A first sign-off leaves every carton with the exceptions it should have if and only if no carton it
      marks missing shares its number with another that is awaited, missing or received. */
  lemma SignOffTracksIff(s: Session)
    requires Signed(s) && SignOffBoxes(s).Ok? && !SignedOff(s.phase)
    ensures AllTracked(SignOffBoxes(s).value) <==> MarkedShareNothing(s.cartons)
  {
    var t := SignOffBoxes(s).value;
    if MarkedShareNothing(s.cartons) {
      forall i | 0 <= i < |t.cartons| ensures CartonTracked(t.cartons[i], t.exceptions) {
        NothingSharedIsTracked(s, i);
      }
    } else {
      var i, j :| 0 <= i < |s.cartons| && 0 <= j < |s.cartons| && i != j && Unsigned(s.cartons[j])
                  && Awaited(s.cartons[i].status) && Norm(s.cartons[i].no) == Norm(s.cartons[j].no);
      SharedIsNotTracked(s, i, j);
    }
  }

  // Runs that end where a law fails

  lemma RunTwo(s: Session, a: Step, b: Step)
    ensures Run(s, [a, b]) == Next(Next(s, a), b)
  {
    assert [a, b][..1] == [a] && [a][..0] == [];
    assert Run(s, [a]) == Next(s, a);
  }

  function Box(no: string): Carton { Carton(no, true, Expected) }

  function Awaiting(cartons: seq<Carton>): Session { Session(Receiving, cartons, |cartons|, [], []) }

  lemma NormsOf()
    ensures Norm(Trim("b0")) == "b0" && Norm("b0") == "b0" && Norm("b1") == "b1"
  {
    assert Trim("b0") == "b0" && BlankTrim("b0") == "b0" && BlankTrim("b1") == "b1";
    assert Lower("b0") == "b0" && Lower("b1") == "b1";
  }

  lemma {:induction false} ReceivedFirst(cartons: seq<Carton>, n: nat)
    requires 0 < n <= |cartons| && cartons[0].status == Received
    ensures ReceivedCount(cartons, n) >= 1
  {
    if n > 1 {
      ReceivedFirst(cartons, n - 1);
    } else {
      assert ReceivedCount(cartons, 0) == 0;
    }
  }

  /** The first of several boxes received, and the others signed off as missing. */
  lemma ReceivesFirst(cartons: seq<Carton>)
    requires |cartons| > 0 && cartons[0] == Box("b0")
    requires forall i :: 0 < i < |cartons| ==> cartons[i] == Box("b1")
    ensures var t := Next(Awaiting(cartons), Confirm("b0", false));
            && Fresh(Awaiting(cartons)) && SignOffBoxes(t).Ok? && t.phase == Receiving
            && t.cartons == cartons[0 := Box("b0").(status := Received)]
  {
    NormsOf();
    assert FindCarton(cartons, "b0") == Some(0);
    var t := Next(Awaiting(cartons), Confirm("b0", false));
    ReceivedFirst(t.cartons, |cartons|);
  }

  lemma SignsFirst(cartons: seq<Carton>)
    requires |cartons| > 0 && cartons[0] == Box("b0")
    requires forall i :: 0 < i < |cartons| ==> cartons[i] == Box("b1")
    ensures var t := Next(Awaiting(cartons), Confirm("b0", false));
            var u := Run(Awaiting(cartons), [Confirm("b0", false), SignOff]);
            && Signed(t) && !SignedOff(t.phase) && SignOffBoxes(t) == Ok(u)
            && Good(u) && u.phase == ItemVerification
               && u.cartons == MarkMissing(cartons[0 := Box("b0").(status := Received)])
  {
    var t := Next(Awaiting(cartons), Confirm("b0", false));
    ReceivesFirst(cartons);
    RunTwo(Awaiting(cartons), Confirm("b0", false), SignOff);
    RunKeeps(Awaiting(cartons), [Confirm("b0", false), SignOff]);
    RunKeeps(Awaiting(cartons), []);
    ConfirmKeeps(Awaiting(cartons), "b0", false);
    SignedEffect(t);
  }

  /** Two boxes with one number are marked missing together, and each has two open exceptions. */
  lemma SharedNumberIsNotTracked()
    ensures var s := Awaiting([Box("b0"), Box("b1"), Box("b1")]);
            Fresh(s) && !AllTracked(Run(s, [Confirm("b0", false), SignOff]))
  {
    var cartons := [Box("b0"), Box("b1"), Box("b1")];
    ReceivesFirst(cartons);
    SignsFirst(cartons);
    SharedIsNotTracked(Next(Awaiting(cartons), Confirm("b0", false)), 1, 2);
  }

  // Moving on

  ghost predicate AllVerified(cartons: seq<Carton>) {
    forall i :: 0 <= i < |cartons| ==> cartons[i].status == Verified
  }

  lemma {:induction false} VerifiedBelow(cartons: seq<Carton>, n: nat)
    requires n <= |cartons|
    ensures VerifiedCount(cartons, n) <= n
    ensures VerifiedCount(cartons, n) == n <==> forall i :: 0 <= i < n ==> cartons[i].status == Verified
  {
    if n > 0 {
      VerifiedBelow(cartons, n - 1);
    }
  }

  /** Completing a box needs an open session and a carton with that number. It verifies the first such carton and
      nothing else, logs that and the box's variances, and moves the session on exactly when that was the last one:
      when every carton is verified and there are as many as were announced. It then waits for exceptions if one is
      open, and for putaway if none is. */
  lemma CompletionMovesIff(s: Session, box: string, lines: seq<LineCheck>)
    ensures CompleteBox(s, box, lines).Ok? <==>
            s.phase != Completed && exists i :: 0 <= i < |s.cartons| && Norm(s.cartons[i].no) == Norm(box)
    ensures CompleteBox(s, box, lines).Ok? ==>
            var t := CompleteBox(s, box, lines).value;
            var i := FindCarton(s.cartons, Norm(box));
            && i.Some? && t.cartons == s.cartons[i.value := s.cartons[i.value].(status := Verified)]
            && t.phase == (if s.cartons[i.value].status == Verified || !AllVerified(t.cartons)
                               || |t.cartons| < s.boxesTotal then s.phase
                           else if exists e :: 0 <= e < |t.exceptions| && t.exceptions[e].open then ExceptionPending
                           else PutawayPending)
            && (if s.cartons[i.value].status == Verified then t == s
                else t.events == s.events + [BoxVerified(box)] && t.boxesTotal == s.boxesTotal
                     && t.exceptions == s.exceptions + Variances(box, lines))
  {
    if CompleteBox(s, box, lines).Ok? {
      var t := CompleteBox(s, box, lines).value;
      VerifiedBelow(t.cartons, |t.cartons|);
    }
  }

  lemma CompletedMovesOn(s: Session, box: string, lines: seq<LineCheck>)
    requires CompleteBox(s, box, lines).Ok? && (s.phase == PutawayPending ==> AllVerified(s.cartons))
    ensures var t := CompleteBox(s, box, lines).value; t.phase == PutawayPending ==> AllVerified(t.cartons)
  {
    CompletionMovesIff(s, box, lines);
  }

  /** Over every run from a fresh list in receiving, putaway is waited for only when every carton is verified. */
  lemma {:induction false} PutawayMeansVerified(s0: Session, steps: seq<Step>)
    requires Fresh(s0) && s0.phase == Receiving
    ensures Run(s0, steps).phase == PutawayPending ==> AllVerified(Run(s0, steps).cartons)
  {
    if |steps| > 0 {
      var s, step := Run(s0, steps[..|steps| - 1]), steps[|steps| - 1];
      PutawayMeansVerified(s0, steps[..|steps| - 1]);
      if Next(s, step) != s {
        match step
        case Confirm(box, damaged) => var i := ConfirmedEffect(s, box, damaged);
        case SignOff => SignedEffect(s);
        case Complete(box, lines) => CompletedMovesOn(s, box, lines);
      }
    }
  }

  // Completing a box that was marked missing

  /** Nothing about the carton is resolved: its open exceptions are still open, and there are as many when no
      sign-off can add to them. */
  ghost predicate LeavesOpen(s: Session, t: Session, i: nat)
    requires i < |s.cartons|
  {
    var before, after := OpenFor(s.exceptions, Norm(s.cartons[i].no)), OpenFor(t.exceptions, Norm(s.cartons[i].no));
    && SameNumbers(s.cartons, t.cartons) && t.cartons[i] == s.cartons[i]
    && before <= after && (Alone(s.cartons, i) || SignedOff(s.phase) ==> after == before)
    && (SignedOff(s.phase) ==> SignedOff(t.phase))
  }

  lemma SignOffLeavesVerified(s: Session, i: nat)
    requires i < |s.cartons| && s.cartons[i].status == Verified && SignOffBoxes(s).Ok? && !SignedOff(s.phase)
    ensures LeavesOpen(s, SignOffBoxes(s).value, i)
  {
    SignedEffect(s);
    if Alone(s.cartons, i) {
      CountMarkedExact(s.cartons, i, |s.cartons|);
    }
  }

  lemma StepLeavesVerified(s: Session, step: Step, i: nat)
    requires i < |s.cartons| && First(s.cartons, i) && s.cartons[i].status == Verified
    ensures LeavesOpen(s, Next(s, step), i)
  {
    var t := Next(s, step);
    if t != s {
      match step
      case Confirm(box, damaged) =>
        var k := ConfirmedEffect(s, box, damaged);
        assert ReceivedAt(s, t, k);
      case SignOff => SignOffLeavesVerified(s, i);
      case Complete(box, lines) =>
        var k := CompletedEffect(s, box, lines);
        assert VerifiedAt(s, t, k);
    }
  }

  /** No later step of the wizard resolves a missing-box exception under the number of a verified carton, when
      that carton is the one its number finds: scanning it again is a duplicate. Only a sign-off still to come
      adds to them, and only for others with that number. */
  lemma {:induction false} StaysOpen(s: Session, steps: seq<Step>, i: nat)
    requires i < |s.cartons| && First(s.cartons, i) && s.cartons[i].status == Verified
    ensures LeavesOpen(s, Run(s, steps), i)
  {
    if |steps| > 0 {
      StaysOpen(s, steps[..|steps| - 1], i);
      StepLeavesVerified(Run(s, steps[..|steps| - 1]), steps[|steps| - 1], i);
    }
  }

  lemma {:induction false} OpenMeansAny(exceptions: seq<Exception>, key: string)
    requires OpenFor(exceptions, key) > 0
    ensures AnyOpen(exceptions)
  {
    if !IsOpenMissing(exceptions[|exceptions| - 1], key) {
      OpenMeansAny(exceptions[..|exceptions| - 1], key);
    }
  }

  lemma PhaseMoves(s: Session, step: Step)
    ensures Next(s, step).phase == PutawayPending ==> s.phase == PutawayPending || !AnyOpen(Next(s, step).exceptions)
  {
    if Apply(s, step).Ok? && step.Complete? {
      var i := CompletedEffect(s, step.box, step.lines);
    }
  }

  /** While such an exception is open, no step of the wizard moves the session on to putaway. */
  lemma {:induction false} NeverPutAway(s: Session, steps: seq<Step>, i: nat)
    requires i < |s.cartons| && First(s.cartons, i) && s.cartons[i].status == Verified
    requires OpenFor(s.exceptions, Norm(s.cartons[i].no)) > 0 && s.phase != PutawayPending
    ensures Run(s, steps).phase != PutawayPending
  {
    if |steps| > 0 {
      var m, step := Run(s, steps[..|steps| - 1]), steps[|steps| - 1];
      NeverPutAway(s, steps[..|steps| - 1], i);
      StaysOpen(s, steps[..|steps| - 1], i);
      StaysOpen(s, steps, i);
      OpenMeansAny(Next(m, step).exceptions, Norm(s.cartons[i].no));
      PhaseMoves(m, step);
    }
  }

  lemma VerifiedIs(s: Session, m: Session, i: nat)
    requires Good(s) && VerifiedAt(s, m, i) && First(s.cartons, i) && Awaited(s.cartons[i].status)
    ensures var open := OpenFor(s.exceptions, Norm(s.cartons[i].no));
            && SameNumbers(s.cartons, m.cartons) && First(m.cartons, i) && m.cartons[i].status == Verified
            && OpenFor(m.exceptions, Norm(s.cartons[i].no)) == open
            && (s.cartons[i].status == Missing ==> open > 0 && SignedOff(m.phase))
            && (Alone(s.cartons, i) ==> Alone(m.cartons, i) && open == if s.cartons[i].status == Missing then 1 else 0)
            && (AnyOpen(m.exceptions) && s.phase != PutawayPending ==> m.phase != PutawayPending)
  {
    assert MissingLogged(s.cartons[i], s.exceptions);
    assert Alone(s.cartons, i) ==> CartonTracked(s.cartons[i], s.exceptions);
    assert SameNumbers(s.cartons, m.cartons);
  }

  lemma CompletedIs(s: Session, box: string, lines: seq<LineCheck>, i: nat)
    requires Good(s) && s.phase != Completed && FindCarton(s.cartons, Norm(box)) == Some(i)
    requires Awaited(s.cartons[i].status)
    ensures var m, open := Next(s, Complete(box, lines)), OpenFor(s.exceptions, Norm(box));
            && SameNumbers(s.cartons, m.cartons) && First(m.cartons, i) && m.cartons[i].status == Verified
            && OpenFor(m.exceptions, Norm(box)) == open
            && (s.cartons[i].status == Missing ==> open > 0 && SignedOff(m.phase))
            && (Alone(s.cartons, i) ==> Alone(m.cartons, i) && open == if s.cartons[i].status == Missing then 1 else 0)
            && (AnyOpen(m.exceptions) && s.phase != PutawayPending ==> m.phase != PutawayPending)
  {
    var k := CompletedEffect(s, box, lines);
    assert First(s.cartons, i) && Norm(s.cartons[i].no) == Norm(box);
    VerifiedIs(s, Next(s, Complete(box, lines)), i);
  }

  /** Completing the carton its number finds decides, for every continuation by the wizard's steps, whether an
      open missing-box exception under that number stays: none of them closes one, and while there is one none
      moves the session on to putaway. There is one if the carton was completed while marked missing, and then
      none is added; with a number of its own there is one, and exactly one, if and only if it was. */
  lemma CompletedWhileMissingIff(s: Session, box: string, lines: seq<LineCheck>, i: nat, steps: seq<Step>)
    requires Good(s) && s.phase != Completed && FindCarton(s.cartons, Norm(box)) == Some(i)
    requires Awaited(s.cartons[i].status)
    ensures var t := Run(Next(s, Complete(box, lines)), steps);
            var before, after := OpenFor(s.exceptions, Norm(box)), OpenFor(t.exceptions, Norm(box));
            && i < |t.cartons| && t.cartons[i].status == Verified && before <= after
            && (before > 0 && s.phase != PutawayPending ==> t.phase != PutawayPending)
            && (s.cartons[i].status == Missing ==> 0 < before == after)
            && (Alone(s.cartons, i) ==> after == if s.cartons[i].status == Missing then 1 else 0)
  {
    var m := Next(s, Complete(box, lines));
    CompletedIs(s, box, lines, i);
    StaysOpen(m, steps, i);
    if OpenFor(s.exceptions, Norm(box)) > 0 && s.phase != PutawayPending {
      OpenMeansAny(m.exceptions, Norm(box));
      NeverPutAway(m, steps, i);
    }
  }

  const SIGNED_OFF: seq<Carton> := [Box("b0").(status := Received), Box("b1").(status := Missing)]

  lemma SecondBox()
    ensures Norm("b1") == "b1" && Alone(SIGNED_OFF, 1) && FindCarton(SIGNED_OFF, "b1") == Some(1)
  {
    NormsOf();
    assert SIGNED_OFF[..1][..0] == [] && FindCarton(SIGNED_OFF[..1], "b1").None?;
  }

  lemma MarksSecond()
    ensures MarkMissing([Box("b0"), Box("b1")][0 := Box("b0").(status := Received)]) == SIGNED_OFF
  {
  }

  /** A box marked missing at sign-off and then completed without being confirmed: verified, and still an
      open exception. */
  lemma CompletedWhileMissing()
    ensures var s := Awaiting([Box("b0"), Box("b1")]);
            var t := Next(Run(s, [Confirm("b0", false), SignOff]), Complete("b1", []));
            && Fresh(s) && |t.cartons| == 2 && t.cartons[1].status == Verified && OpenFor(t.exceptions, "b1") == 1
  {
    var cartons := [Box("b0"), Box("b1")];
    ReceivesFirst(cartons);
    SignsFirst(cartons);
    MarksSecond();
    SecondBox();
    CompletedIs(Run(Awaiting(cartons), [Confirm("b0", false), SignOff]), "b1", [], 1);
  }

  // The handlers as they run

  class RfSession {
    var phase: Phase
    var cartons: seq<Carton>
    var boxesTotal: nat
    var exceptions: seq<Exception>
    var events: seq<Event>

    function View(): Session
      reads this
    {
      Session(phase, cartons, boxesTotal, exceptions, events)
    }

    constructor (s: Session)
      ensures View() == s
    {
      phase, cartons, boxesTotal, exceptions, events := s.phase, s.cartons, s.boxesTotal, s.exceptions, s.events;
    }

    method Confirm(box: string, damaged: bool) returns (r: Result<bool, Error>)
      modifies `cartons, `exceptions, `events
      ensures r.Err? <==> ConfirmBox(old(View()), box, damaged).Err?
      ensures View() == Next(old(View()), Step.Confirm(box, damaged))
    {
      if phase == Completed { return Err(SessionClosed); }
      var found := FindCarton(cartons, Norm(Trim(box)));
      if found.None? { return Err(NotOnPackingList); }
      var i := found.value;
      var c := cartons[i];
      if c.status == Verified || IsDuplicate(c.status) { return Ok(false); }
      cartons := cartons[i := c.(status := Received)];
      var event := BoxReceived(Trim(box));
      if damaged {
        event := BoxDamaged(Trim(box));
      } else if c.status == Missing {
        event := LateArrival(Trim(box));
      }
      events := events + [event];
      if c.status == Missing { exceptions := Resolve(exceptions, Norm(Trim(box))); }
      if damaged {
        exceptions := exceptions + [Exception(Damage, c.no, true)];
      } else {
        assert exceptions + [] == exceptions;
      }
      return Ok(true);
    }

    /** Marks every expected carton nobody scanned, logging one exception and one event each. */
    method MarkUnsignedMissing() returns (marked: seq<string>)
      modifies `cartons, `exceptions, `events
      ensures cartons == MarkMissing(old(cartons))
      ensures exceptions == old(exceptions) + MissingExceptions(old(cartons), |old(cartons)|)
      ensures events == old(events) + MissingEvents(old(cartons), |old(cartons)|)
      ensures |marked| == |exceptions| - |old(exceptions)|
    {
      ghost var was := cartons;
      marked := [];
      var i := 0;
      assert exceptions + [] == exceptions && events + [] == events;
      while i < |cartons|
        invariant 0 <= i <= |cartons| == |was|
        invariant forall j :: 0 <= j < i ==> cartons[j] == MarkMissing(was)[j]
        invariant forall j :: i <= j < |was| ==> cartons[j] == was[j]
        invariant exceptions == old(exceptions) + MissingExceptions(was, i)
        invariant events == old(events) + MissingEvents(was, i)
        invariant |marked| == |exceptions| - |old(exceptions)|
      {
        var c := cartons[i];
        if Unsigned(c) {
          cartons := cartons[i := c.(status := Missing)];
          exceptions := exceptions + [Exception(MissingBox, c.no, true)];
          events := events + [BoxMissing(c.no)];
          marked := marked + [c.no];
        }
        i := i + 1;
      }
    }

    method SignOff() returns (r: Result<bool, Error>)
      modifies `phase, `cartons, `exceptions, `events
      ensures r.Err? <==> SignOffBoxes(old(View())).Err?
      ensures View() == Next(old(View()), Step.SignOff)
    {
      if phase == Completed { return Err(SessionClosed); }
      if ReceivedCount(cartons, |cartons|) < 1 { return Err(NothingReceived); }
      if SignedOff(phase) { return Ok(false); }
      phase := ItemVerification;
      var marked := MarkUnsignedMissing();
      events := events + [TransportSigned];
      return Ok(true);
    }

    method LogVariances(box: string, lines: seq<LineCheck>)
      modifies `exceptions
      ensures exceptions == old(exceptions) + Variances(box, lines)
    {
      var k := 0;
      assert exceptions + [] == exceptions;
      while k < |lines|
        invariant 0 <= k <= |lines|
        invariant exceptions == old(exceptions) + Variances(box, lines[..k])
      {
        assert lines[..k + 1][..k] == lines[..k];
        var l := lines[k];
        if l.scanned < l.expected {
          exceptions := exceptions + [Exception(ItemShortage, box, true)];
        } else if l.scanned > l.expected {
          exceptions := exceptions + [Exception(ItemExcess, box, true)];
        }
        k := k + 1;
      }
      assert lines[..k] == lines;
    }

    method Complete(box: string, lines: seq<LineCheck>) returns (r: Result<bool, Error>)
      modifies `phase, `cartons, `exceptions, `events
      ensures r.Err? <==> CompleteBox(old(View()), box, lines).Err?
      ensures View() == Next(old(View()), Step.Complete(box, lines))
    {
      if phase == Completed { return Err(SessionClosed); }
      var found := FindCarton(cartons, Norm(box));
      if found.None? { return Err(NotOnPackingList); }
      var i := found.value;
      if cartons[i].status == Verified { return Ok(false); }
      cartons := cartons[i := cartons[i].(status := Verified)];
      LogVariances(box, lines);
      events := events + [BoxVerified(box)];
      var total := if boxesTotal > |cartons| then boxesTotal else |cartons|;
      if total > 0 && VerifiedCount(cartons, |cartons|) >= total {
        phase := if AnyOpen(exceptions) then ExceptionPending else PutawayPending;
      }
      return Ok(true);
    }

  }
}
