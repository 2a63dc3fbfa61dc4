/**
 Which buttons are forwarded downstream, and which are suppressed because they
 were already down when the stream was last reset.
 */
module ButtonState {
  import opened Masks

  datatype Buttons = Buttons(forwarded: bv8, suppressed: bv8)
  datatype Edges = Edges(press: bv8, release: bv8)

  const NO_BUTTONS := Buttons(0, 0)
  const NO_EDGES := Edges(0, 0)

  function AfterUpdate(s: Buttons, physical: bv8): Buttons {
    var p := physical & ALL_BUTTONS;
    var suppressed := s.suppressed & p;
    Buttons(p & !suppressed, suppressed)
  }

  function UpdateEdges(s: Buttons, physical: bv8): Edges {
    var next := AfterUpdate(s, physical).forwarded;
    Edges(next & !s.forwarded, s.forwarded & !next)
  }

  function AfterReset(physical: bv8): Buttons {
    Buttons(0, physical & ALL_BUTTONS)
  }

  function ResetEdges(s: Buttons): Edges {
    Edges(0, s.forwarded)
  }

  /** `struct mouse_button_state`, updated in place. */
  class Tracker {
    var forwarded: bv8
    var suppressed: bv8

    function View(): Buttons
      reads this
    {
      Buttons(forwarded, suppressed)
    }

    constructor ()
      ensures View() == NO_BUTTONS
    {
      forwarded, suppressed := 0, 0;
    }

    method Update(physical: bv8) returns (edges: Edges)
      modifies this
      ensures View() == AfterUpdate(old(View()), physical)
      ensures edges == UpdateEdges(old(View()), physical)
    {
      var p := physical & ALL_BUTTONS;
      suppressed := suppressed & p;
      var next := p & !suppressed;
      edges := Edges(next & !forwarded, forwarded & !next);
      forwarded := next;
    }

    method Reset(physical: bv8) returns (release: bv8)
      modifies this
      ensures View() == AfterReset(physical)
      ensures Edges(0, release) == ResetEdges(old(View()))
    {
      release := forwarded;
      forwarded := 0;
      suppressed := physical & ALL_BUTTONS;
    }
  }

  // ---- One step, bit by bit

  ghost predicate Consistent(s: Buttons) {
    s.forwarded & s.suppressed == 0 && s.forwarded | s.suppressed == (s.forwarded | s.suppressed) & ALL_BUTTONS
  }

  lemma UpdateIsConsistent(s: Buttons, physical: bv8)
    ensures var n := AfterUpdate(s, physical);
            && Consistent(n) && n.forwarded | n.suppressed == physical & ALL_BUTTONS
            && n.suppressed & !s.suppressed == 0
  {
  }

  lemma ResetIsConsistent(physical: bv8)
    ensures var n := AfterReset(physical);
            Consistent(n) && n.forwarded | n.suppressed == physical & ALL_BUTTONS
  {
  }

  lemma MinusBit(a: bv8, b: bv8, i: Button)
    ensures Has(a & !b, i) <==> Has(a, i) && !Has(b, i)
  {
  }

  lemma FiveBit(physical: bv8, i: Button)
    ensures Has(physical & ALL_BUTTONS, i) <==> Has(physical, i)
  {
  }

  lemma UpdateBit(s: Buttons, physical: bv8, i: Button)
    ensures var n := AfterUpdate(s, physical); var e := UpdateEdges(s, physical);
            && (Has(n.suppressed, i) <==> Has(s.suppressed, i) && Has(physical, i))
            && (Has(n.forwarded, i) <==> Has(physical, i) && !Has(s.suppressed, i))
            && (Has(e.press, i) <==> Has(n.forwarded, i) && !Has(s.forwarded, i))
            && (Has(e.release, i) <==> Has(s.forwarded, i) && !Has(n.forwarded, i))
  {
    UpdateStateBit(s, physical, i);
    var n := AfterUpdate(s, physical);
    MinusBit(n.forwarded, s.forwarded, i);
    MinusBit(s.forwarded, n.forwarded, i);
  }

  lemma UpdateStateBit(s: Buttons, physical: bv8, i: Button)
    ensures var n := AfterUpdate(s, physical);
            && (Has(n.suppressed, i) <==> Has(s.suppressed, i) && Has(physical, i))
            && (Has(n.forwarded, i) <==> Has(physical, i) && !Has(s.suppressed, i))
  {
    var n, p := AfterUpdate(s, physical), physical & ALL_BUTTONS;
    FiveBit(physical, i);
    HasAnd(s.suppressed, p, i);
    MinusBit(p, n.suppressed, i);
  }

  lemma ResetBit(s: Buttons, physical: bv8, i: Button)
    ensures var n := AfterReset(physical); var e := ResetEdges(s);
            && (Has(n.suppressed, i) <==> Has(physical, i))
            && !Has(n.forwarded, i)
            && !Has(e.press, i)
            && (Has(e.release, i) <==> Has(s.forwarded, i))
  {
  }

  // ---- Traces of updates and resets

  datatype Op = Update(physical: bv8) | Reset(physical: bv8)

  function After(s: Buttons, op: Op): Buttons {
    match op
    case Update(p) => AfterUpdate(s, p)
    case Reset(p) => AfterReset(p)
  }

  function EdgesOf(s: Buttons, op: Op): Edges {
    match op
    case Update(p) => UpdateEdges(s, p)
    case Reset(_) => ResetEdges(s)
  }

  function Run(ops: seq<Op>): Buttons {
    if ops == [] then NO_BUTTONS else After(Run(ops[..|ops| - 1]), ops[|ops| - 1])
  }

  // Position of the last reset, or -1.
  ghost function LastReset(ops: seq<Op>): (r: int)
    ensures -1 <= r < |ops|
    ensures r >= 0 ==> ops[r].Reset?
    ensures forall k :: r < k < |ops| ==> ops[k].Update?
  {
    if ops == [] then -1
    else if ops[|ops| - 1].Reset? then |ops| - 1
    else LastReset(ops[..|ops| - 1])
  }

  // Button `i` was held at the last reset and has been down in every update since.
  ghost predicate HeldSinceReset(ops: seq<Op>, i: Button) {
    var r := LastReset(ops);
    r >= 0 && forall k :: r <= k < |ops| ==> Has(ops[k].physical, i)
  }

  // The documented meaning of "forwarded", with no reference to the two masks.
  ghost predicate ShouldForward(ops: seq<Op>, i: Button) {
    && ops != []
    && ops[|ops| - 1].Update?
    && Has(ops[|ops| - 1].physical, i)
    && !HeldSinceReset(ops, i)
  }

  lemma {:induction false} HeldSinceResetStep(ops: seq<Op>, i: Button)
    requires ops != []
    ensures HeldSinceReset(ops, i) <==>
            Has(ops[|ops| - 1].physical, i)
            && (ops[|ops| - 1].Reset? || HeldSinceReset(ops[..|ops| - 1], i))
  {
  }

  lemma {:induction false} SuppressedMeaning(ops: seq<Op>, i: Button)
    ensures Has(Run(ops).suppressed, i) <==> HeldSinceReset(ops, i)
  {
    if ops == [] {
      HasAll(i);
    } else {
      var init, last := ops[..|ops| - 1], ops[|ops| - 1];
      SuppressedMeaning(init, i);
      HeldSinceResetStep(ops, i);
      match last {
        case Update(p) => UpdateBit(Run(init), p, i);
        case Reset(p) => ResetBit(Run(init), p, i);
      }
    }
  }

  /** A button is forwarded exactly when the trace says that it should be. */
  lemma {:induction false} ForwardedMeaning(ops: seq<Op>, i: Button)
    ensures Has(Run(ops).forwarded, i) <==> ShouldForward(ops, i)
  {
    if ops == [] {
      HasAll(i);
    } else {
      var init, last := ops[..|ops| - 1], ops[|ops| - 1];
      SuppressedMeaning(init, i);
      HeldSinceResetStep(ops, i);
      match last {
        case Update(p) => UpdateBit(Run(init), p, i);
        case Reset(p) => ResetBit(Run(init), p, i);
      }
    }
  }

  // ---- What one button's listener sees

  // Presses (true) and releases (false) of button `i`, in order.
  function Emitted(ops: seq<Op>, i: Button): seq<bool> {
    if ops == [] then []
    else
      var init := ops[..|ops| - 1];
      Emitted(init, i) + EmittedBy(EdgesOf(Run(init), ops[|ops| - 1]), i)
  }

  ghost predicate Alternates(events: seq<bool>) {
    forall k :: 0 <= k < |events| ==> events[k] == (k % 2 == 0)
  }

  // What one operation adds for button `i`.
  function EmittedBy(e: Edges, i: Button): seq<bool> {
    (if Has(e.press, i) then [true] else []) + (if Has(e.release, i) then [false] else [])
  }

  lemma EmittedOnce(s: Buttons, op: Op, i: Button)
    ensures var now := Has(After(s, op).forwarded, i);
            EmittedBy(EdgesOf(s, op), i) == if Has(s.forwarded, i) == now then [] else [now]
  {
  }

  lemma OneMoreEdge(events: seq<bool>, before: bool, now: bool)
    requires Alternates(events) && (before <==> |events| % 2 == 1)
    ensures var more := events + if before == now then [] else [now]; Alternates(more) && (now <==> |more| % 2 == 1)
  {
  }

  /** Presses and releases strictly alternate, starting with a press; the button is down exactly when forwarded. */
  lemma {:induction false} EdgesAlternate(ops: seq<Op>, i: Button)
    ensures Alternates(Emitted(ops, i))
    ensures Has(Run(ops).forwarded, i) <==> |Emitted(ops, i)| % 2 == 1
  {
    if ops == [] {
      HasAll(i);
    } else {
      var init := ops[..|ops| - 1];
      EdgesAlternate(init, i);
      EmittedOnce(Run(init), ops[|ops| - 1], i);
      OneMoreEdge(Emitted(init, i), Has(Run(init).forwarded, i), Has(Run(ops).forwarded, i));
    }
  }
}
