/** The reference-counted index handle (internal/daemon/index.go): requests hold the database they
    started on while it is replaced, or the daemon closed, around them. */
module Handles {
  import opened Text

  /** One handle's fields. `file` is which file on disk it opened; `closes` counts db.Close calls. */
  datatype H = H(file: int, refs: int, retired: bool, open: bool, closes: nat)

  function Opened(file: int): H { H(file, 1, false, true, 0) }

  /** closeIfDone. */
  function ClosedIfDone(h: H): H {
    if !h.retired || h.refs > 0 || !h.open then h else h.(open := false, closes := h.closes + 1)
  }

  function RefOf(h: H): H { h.(refs := h.refs + 1) }

  function ReleaseOf(h: H): H { ClosedIfDone(h.(refs := h.refs - 1)) }

  function RetireOf(h: H): H { ClosedIfDone(h.(retired := true)) }

  class Handle {
    const file: int
    var refs: int
    var retired: bool
    var open: bool
    ghost var closes: nat

    ghost function V(): H
      reads this
    {
      H(file, refs, retired, open, closes)
    }

    constructor (file: int)
      ensures V() == Opened(file)
    {
      this.file, refs, retired, open, closes := file, 1, false, true, 0;
    }

    method Ref()
      modifies this
      ensures V() == RefOf(old(V()))
    {
      refs := refs + 1;
    }

    method Release()
      modifies this
      ensures V() == ReleaseOf(old(V()))
    {
      refs := refs - 1;
      CloseIfDone();
    }

    method Retire()
      modifies this
      ensures V() == RetireOf(old(V()))
    {
      retired := true;
      CloseIfDone();
    }

    method CloseIfDone()
      modifies this
      ensures V() == ClosedIfDone(old(V()))
    {
      if !retired || refs > 0 || !open {
        return;
      }
      open, closes := false, closes + 1;
    }
  }

  /** os.Stat of the database path. */
  datatype StatResult = Missing | StatError | Found(file: int)

  class Daemon {
    var current: Handle?
    var closed: bool

    constructor ()
      ensures current == null && !closed
    {
      current, closed := null, false;
    }

    /** retireCurrent. */
    method RetireCurrent()
      modifies this`current, current
      ensures current == null
      ensures old(current) != null ==> old(current).V() == RetireOf(old(current.V()))
    {
      if current != null {
        current.Retire();
        current := null;
      }
    }

    /** acquire, once the gate is held. */
    method Acquire(stat: StatResult, opens: bool) returns (h: Handle?)
      modifies this`current, current
      ensures closed || stat.StatError? ==> h == null && current == old(current)
      ensures closed || stat.StatError? ==> current != null ==> current.V() == old(current.V())
      ensures !closed && stat.Missing? ==> h == null && current == null
      ensures !closed && stat.Found? && old(current) != null && old(current).file == stat.file ==>
                h == current == old(current) && h.V() == RefOf(old(current.V()))
      ensures !closed && stat.Found? && (old(current) == null || old(current).file != stat.file) ==>
                && h == current && (h != null <==> opens)
                && (h != null ==> fresh(h) && h.V() == Opened(stat.file))
      ensures !closed && old(current) != null && (stat.Missing? || (stat.Found? && old(current).file != stat.file)) ==>
                old(current).V() == RetireOf(old(current.V()))
    {
      if closed || stat.StatError? {
        return null;
      }
      if stat.Missing? {
        RetireCurrent();
        return null;
      }
      if current != null {
        if current.file == stat.file {
          current.Ref();
          return current;
        }
        RetireCurrent();
      }
      if !opens {
        return null;
      }
      current := new Handle(stat.file);
      return current;
    }

    /** Close, once the gate is held. */
    method Close()
      modifies this, current
      ensures closed && current == null
      ensures old(current) != null ==> old(current).V() == RetireOf(old(current.V()))
    {
      closed := true;
      RetireCurrent();
    }
  }

  // ---------------------------------------------------------------------------------------
  // The protocol

  /** Where a request is. Every phase but Waiting, Holding and Done is inside the gate. */
  datatype Phase = Waiting | Checking | Opening(file: int) | Holding(h: nat) | Done

  datatype Closing = NotClosing | InGate | Flagged | Closed

  datatype Gate = Free | Held(r: nat) | HeldByClose

  datatype World = World(
    handles: seq<H>,
    current: Option<nat>,
    closed: bool,
    gate: Gate,
    closing: Closing,
    requests: map<nat, Phase>)

  const BOOT := World([], None, false, Free, NotClosing, map[])

  datatype Op =
    | Arrive(r: nat) | Enter(r: nat) | Refuse(r: nat) | Share(r: nat, file: int) | Drop(r: nat, found: Option<int>)
    | OpenFails(r: nat) | OpenSucceeds(r: nat) | Release(r: nat)
    | CloseEnters | CloseFlags | CloseRetires

  function Retired(w: World): World {
    match w.current
    case None => w
    case Some(c) => if c < |w.handles| then w.(handles := w.handles[c := RetireOf(w.handles[c])], current := None) else w
  }

  predicate At(w: World, r: nat, p: Phase) {
    r in w.requests && w.requests[r] == p
  }

  function Move(w: World, r: nat, p: Phase): World { w.(requests := w.requests[r := p]) }

  /** One step of a request or of Close; a request's release needs no gate, so it may fall between any
      two steps of another. */
  ghost predicate Step(w: World, op: Op, v: World) {
    match op
    case Arrive(r) => r !in w.requests && v == Move(w, r, Waiting)
    case Enter(r) => At(w, r, Waiting) && w.gate.Free? && v == Move(w, r, Checking).(gate := Held(r))
    // closed, or a stat error that is not "missing"
    case Refuse(r) => At(w, r, Checking) && v == Move(w, r, Done).(gate := Free)
    // the current handle is the file on disk
    case Share(r, file) =>
      && At(w, r, Checking) && !w.closed && w.current.Some? && w.current.value < |w.handles|
      && w.handles[w.current.value].file == file
      && v == Move(w, r, Holding(w.current.value)).(
                gate := Free, handles := w.handles[w.current.value := RefOf(w.handles[w.current.value])])
    // the file is missing, replaced, or was never opened
    case Drop(r, found) =>
      && At(w, r, Checking) && !w.closed
      && (found.Some? && w.current.Some? && w.current.value < |w.handles| ==> w.handles[w.current.value].file != found.value)
      && v == (match found
               case None => Move(Retired(w), r, Done).(gate := Free)
               case Some(file) => Move(Retired(w), r, Opening(file)))
    case OpenFails(r) => r in w.requests && w.requests[r].Opening? && v == Move(w, r, Done).(gate := Free)
    case OpenSucceeds(r) =>
      && r in w.requests && w.requests[r].Opening?
      && v == Move(w, r, Holding(|w.handles|)).(
                gate := Free, handles := w.handles + [Opened(w.requests[r].file)], current := Some(|w.handles|))
    case Release(r) =>
      && r in w.requests && w.requests[r].Holding? && w.requests[r].h < |w.handles|
      && v == Move(w, r, Done).(handles := w.handles[w.requests[r].h := ReleaseOf(w.handles[w.requests[r].h])])
    case CloseEnters => w.gate.Free? && w.closing.NotClosing? && v == w.(gate := HeldByClose, closing := InGate)
    case CloseFlags => w.closing.InGate? && v == w.(closed := true, closing := Flagged)
    case CloseRetires => w.closing.Flagged? && v == Retired(w).(gate := Free, closing := Closed)
  }

  ghost predicate Run(states: seq<World>, ops: seq<Op>) {
    |states| == |ops| + 1 && forall i :: 0 <= i < |ops| ==> Step(states[i], ops[i], states[i + 1])
  }

  // ---------------------------------------------------------------------------------------
  // Safety

  function Holders(w: World, h: nat): set<nat> {
    set r | r in w.requests && w.requests[r] == Holding(h)
  }

  predicate Inside(p: Phase) { p.Checking? || p.Opening? }

  /** One handle: its count is its holders, it is open until it is retired and unheld, it is closed
      at most once, and it is unretired only while current. */
  ghost predicate HandleOk(w: World, h: nat)
    requires h < |w.handles|
  {
    var x := w.handles[h];
    && x.refs == |Holders(w, h)|
    && (x.open <==> !(x.retired && x.refs == 0))
    && x.closes == (if x.open then 0 else 1)
    && (!x.retired <==> w.current == Some(h))
  }

  ghost predicate GateOk(w: World) {
    && (forall r :: r in w.requests && Inside(w.requests[r]) ==> w.gate == Held(r))
    && (w.closing.InGate? || w.closing.Flagged? ==> w.gate.HeldByClose?)
    && (w.closed <==> w.closing.Flagged? || w.closing.Closed?)
    && (w.closing.Closed? ==> w.current.None?)
    && (forall r :: r in w.requests && w.requests[r].Opening? ==> w.current.None? && !w.closed)
    && (w.current.Some? ==> w.current.value < |w.handles|)
    && (forall r :: r in w.requests && w.requests[r].Holding? ==> w.requests[r].h < |w.handles|)
  }

  ghost predicate Safe(w: World) {
    GateOk(w) && forall h :: 0 <= h < |w.handles| ==> HandleOk(w, h)
  }

  lemma MoveOutside(w: World, r: nat, p: Phase, h: nat)
    requires !(r in w.requests && w.requests[r] == Holding(h)) && p != Holding(h)
    ensures Holders(Move(w, r, p), h) == Holders(w, h)
  {
  }

  lemma MoveIn(w: World, r: nat, h: nat)
    requires !(r in w.requests && w.requests[r] == Holding(h))
    ensures |Holders(Move(w, r, Holding(h)), h)| == |Holders(w, h)| + 1
  {
    assert Holders(Move(w, r, Holding(h)), h) == Holders(w, h) + {r};
  }

  lemma MoveOut(w: World, r: nat, h: nat)
    requires r in w.requests && w.requests[r] == Holding(h)
    ensures |Holders(w, h)| >= 1 && |Holders(Move(w, r, Done), h)| == |Holders(w, h)| - 1
  {
    assert Holders(w, h) == Holders(Move(w, r, Done), h) + {r};
  }

  /** Holders depend on the requests alone. */
  lemma SameHolders(w: World, v: World, h: nat)
    requires w.requests == v.requests
    ensures Holders(w, h) == Holders(v, h)
  {
  }

  lemma NewHandleUnheld(w: World)
    requires GateOk(w)
    ensures Holders(w, |w.handles|) == {}
  {
  }

  lemma RetiringKeepsHandle(w: World, op: Op, v: World, h: nat)
    requires Safe(w) && Step(w, op, v) && h < |v.handles| && (op.Drop? || op.CloseRetires?)
    ensures HandleOk(v, h)
  {
    hide Holders;
    assert HandleOk(w, h);
    match op {
      case Drop(r, found) =>
        var to := if found.None? then Done else Opening(found.value);
        SameHolders(Move(w, r, to), v, h);
        MoveOutside(w, r, to, h);
      case CloseRetires => SameHolders(w, v, h);
    }
  }

  lemma HandleKept(w: World, op: Op, v: World, h: nat)
    requires Safe(w) && Step(w, op, v) && h < |v.handles|
    ensures HandleOk(v, h)
  {
    hide Holders;
    if h < |w.handles| {
      assert HandleOk(w, h);
    }
    match op {
      case Arrive(r) => MoveOutside(w, r, Waiting, h);
      case Enter(r) => MoveOutside(w, r, Checking, h); SameHolders(Move(w, r, Checking), v, h);
      case Refuse(r) => MoveOutside(w, r, Done, h); SameHolders(Move(w, r, Done), v, h);
      case Share(r, _) =>
        var to := Holding(w.current.value);
        SameHolders(Move(w, r, to), v, h);
        if h == w.current.value { MoveIn(w, r, h); } else { MoveOutside(w, r, to, h); }
      case Drop(_, _) => RetiringKeepsHandle(w, op, v, h);
      case CloseRetires => RetiringKeepsHandle(w, op, v, h);
      case OpenFails(r) => MoveOutside(w, r, Done, h); SameHolders(Move(w, r, Done), v, h);
      case OpenSucceeds(r) =>
        var to := Holding(|w.handles|);
        SameHolders(Move(w, r, to), v, h);
        if h == |w.handles| { NewHandleUnheld(w); MoveIn(w, r, h); } else { MoveOutside(w, r, to, h); }
      case Release(r) =>
        SameHolders(Move(w, r, Done), v, h);
        if h == w.requests[r].h { MoveOut(w, r, h); } else { MoveOutside(w, r, Done, h); }
      case _ => SameHolders(w, v, h);
    }
  }

  lemma StepKeepsSafe(w: World, op: Op, v: World)
    requires Safe(w) && Step(w, op, v)
    ensures Safe(v)
  {
    hide Step, HandleOk, GateOk;
    GateKept(w, op, v);
    forall h: nat | h < |v.handles| ensures HandleOk(v, h) {
      HandleKept(w, op, v, h);
    }
  }

  lemma GateKept(w: World, op: Op, v: World)
    requires GateOk(w) && Step(w, op, v)
    ensures GateOk(v)
  {
    hide GateOk, Step;
    if op.Drop? || op.CloseRetires? || op.CloseEnters? || op.CloseFlags? {
      RetiringKeepsGate(w, op, v);
    } else {
      RequestKeepsGate(w, op, v);
    }
  }

  lemma RetiringKeepsGate(w: World, op: Op, v: World)
    requires GateOk(w) && Step(w, op, v) && (op.Drop? || op.CloseRetires? || op.CloseEnters? || op.CloseFlags?)
    ensures GateOk(v)
  {
    hide RetireOf;
  }

  lemma RequestKeepsGate(w: World, op: Op, v: World)
    requires GateOk(w) && Step(w, op, v) && !op.Drop? && !op.CloseRetires? && !op.CloseEnters? && !op.CloseFlags?
    ensures GateOk(v)
  {
    hide RefOf, ReleaseOf, Opened, Retired;
  }

  lemma {:induction false} EveryStateIsSafe(states: seq<World>, ops: seq<Op>)
    requires Run(states, ops) && states[0] == BOOT
    ensures forall i :: 0 <= i < |states| ==> Safe(states[i])
    decreases |ops|
  {
    hide Step, HandleOk;
    if ops == [] {
      assert Safe(BOOT);
    } else {
      var n := |ops| - 1;
      assert Run(states[..n + 1], ops[..n]);
      EveryStateIsSafe(states[..n + 1], ops[..n]);
      assert Safe(states[..n + 1][n]);
      StepKeepsSafe(states[n], ops[n], states[n + 1]);
    }
  }

  /** Handle safety, under every interleaving of acquire, release, replacement and Close: a handle's
      count is the number of requests holding it, none of them holds a closed database, no database is
      closed twice, and at most one handle is not retired. */
  lemma HandlesAreSafe(states: seq<World>, ops: seq<Op>, i: nat, h: nat)
    requires Run(states, ops) && states[0] == BOOT && i < |states| && h < |states[i].handles|
    ensures var x := states[i].handles[h];
            && x.refs == |Holders(states[i], h)|
            && (Holders(states[i], h) != {} ==> x.open)
            && x.closes <= 1 && (x.open <==> x.closes == 0)
            && (!x.retired ==> forall g: nat :: g < |states[i].handles| && !states[i].handles[g].retired ==> g == h)
  {
    EveryStateIsSafe(states, ops);
    assert HandleOk(states[i], h);
    forall g: nat | g < |states[i].handles| && !states[i].handles[g].retired && !states[i].handles[h].retired
      ensures g == h
    {
      assert HandleOk(states[i], g);
    }
  }

  /** Once Close has returned no handle is opened, and each is closed when its last holder lets go. */
  lemma {:induction false} ClosedForGood(states: seq<World>, ops: seq<Op>, i: nat, j: nat)
    requires Run(states, ops) && states[0] == BOOT && i <= j < |states| && states[i].closing.Closed?
    ensures states[j].closing.Closed? && |states[j].handles| == |states[i].handles|
    ensures forall h: nat :: h < |states[j].handles| ==> states[j].handles[h].retired
    ensures forall h: nat :: h < |states[j].handles| && Holders(states[j], h) == {} ==>
              !states[j].handles[h].open && states[j].handles[h].closes == 1
    decreases j
  {
    EveryStateIsSafe(states, ops);
    if i < j {
      ClosedForGood(states, ops, i, j - 1);
      assert Step(states[j - 1], ops[j - 1], states[j - 1 + 1]);
    }
    forall h: nat | h < |states[j].handles|
      ensures states[j].handles[h].retired
      ensures Holders(states[j], h) == {} ==> !states[j].handles[h].open && states[j].handles[h].closes == 1
    {
      assert HandleOk(states[j], h);
    }
  }
}
