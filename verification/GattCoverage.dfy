/** Which buttons and axes the subscribed reports carry: `subscribed_cb` of src/ble_mouse.c. */
module GattCoverage {
  import opened Masks
  import opened HidMap

  const ALL_AXES: bv8 := 0x0f

  function AxisBit(u: Usage): nat {
    match u
    case MouseX => 0
    case MouseY => 1
    case MouseWheel => 2
    case MousePan => 3
    case MouseButton => 4
  }

  // What one field adds to the masks, if it belongs to report `k`.
  function MarkButton(mask: bv8, f: Field, k: nat): bv8 {
    if f.report == k && f.usage == MouseButton then mask | BitMask(f.button) else mask
  }

  function MarkAxis(mask: bv8, f: Field, k: nat): bv8 {
    if f.report == k && f.usage != MouseButton then mask | BitMask(AxisBit(f.usage)) else mask
  }

  // The masks with the buttons and axes of report `k` besides.
  function MarkButtons(mask: bv8, fields: seq<Field>, k: nat): bv8 {
    if fields == [] then mask
    else MarkButton(MarkButtons(mask, fields[..|fields| - 1], k), fields[|fields| - 1], k)
  }

  function MarkAxes(mask: bv8, fields: seq<Field>, k: nat): bv8 {
    if fields == [] then mask
    else MarkAxis(MarkAxes(mask, fields[..|fields| - 1], k), fields[|fields| - 1], k)
  }

  // Some field of a subscribed report carries this button, or this axis.
  ghost predicate ButtonIn(fields: seq<Field>, sources: seq<nat>, b: Button) {
    exists k :: 0 <= k < |fields| && fields[k].usage == MouseButton && fields[k].button == b && fields[k].report in sources
  }

  ghost predicate AxisIn(fields: seq<Field>, sources: seq<nat>, u: Usage) {
    exists k :: 0 <= k < |fields| && fields[k].usage == u && fields[k].report in sources
  }

  ghost predicate CoversButtons(fields: seq<Field>, sources: seq<nat>, buttons: bv8) {
    buttons & ALL_BUTTONS == buttons && forall b: Button :: Has(buttons, b) <==> ButtonIn(fields, sources, b)
  }

  ghost predicate CoversAxes(fields: seq<Field>, sources: seq<nat>, axes: bv8) {
    && axes & ALL_AXES == axes
    && forall u: Usage :: u != MouseButton ==> (Has(axes, AxisBit(u)) <==> AxisIn(fields, sources, u))
  }

  ghost predicate Covers(fields: seq<Field>, sources: seq<nat>, buttons: bv8, axes: bv8) {
    CoversButtons(fields, sources, buttons) && CoversAxes(fields, sources, axes)
  }

  lemma NothingCovered(fields: seq<Field>)
    ensures Covers(fields, [], 0, 0)
  {
  }

  lemma OneMoreButton(mask: bv8, f: Field, k: nat, b: Button)
    ensures Has(MarkButton(mask, f, k), b) <==> Has(mask, b) || (f.report == k && f.usage == MouseButton && f.button == b)
  {
  }

  lemma ButtonsFit(mask: bv8, f: Field, k: nat)
    requires mask & ALL_BUTTONS == mask
    ensures MarkButton(mask, f, k) & ALL_BUTTONS == MarkButton(mask, f, k)
  {
  }

  lemma OneMoreAxis(mask: bv8, f: Field, k: nat, u: Usage)
    requires u != MouseButton
    ensures Has(MarkAxis(mask, f, k), AxisBit(u)) <==> Has(mask, AxisBit(u)) || (f.report == k && f.usage == u)
  {
  }

  lemma AxesFit(mask: bv8, f: Field, k: nat)
    requires mask & ALL_AXES == mask
    ensures MarkAxis(mask, f, k) & ALL_AXES == MarkAxis(mask, f, k)
  {
  }

  /** Marking a report adds exactly the buttons of its fields. */
  lemma {:induction false} MarkButtonsMeans(mask: bv8, fields: seq<Field>, k: nat, b: Button)
    ensures Has(MarkButtons(mask, fields, k), b) <==> Has(mask, b) || ButtonIn(fields, [k], b)
    ensures mask & ALL_BUTTONS == mask ==> MarkButtons(mask, fields, k) & ALL_BUTTONS == MarkButtons(mask, fields, k)
  {
    if fields != [] {
      var init := fields[..|fields| - 1];
      MarkButtonsMeans(mask, init, k, b);
      OneMoreButton(MarkButtons(mask, init, k), fields[|fields| - 1], k, b);
      if mask & ALL_BUTTONS == mask { ButtonsFit(MarkButtons(mask, init, k), fields[|fields| - 1], k); }
      assert forall j :: 0 <= j < |init| ==> fields[j] == init[j];
    }
  }

  /** Marking a report adds exactly the axes of its fields. */
  lemma {:induction false} MarkAxesMean(mask: bv8, fields: seq<Field>, k: nat, u: Usage)
    requires u != MouseButton
    ensures Has(MarkAxes(mask, fields, k), AxisBit(u)) <==> Has(mask, AxisBit(u)) || AxisIn(fields, [k], u)
    ensures mask & ALL_AXES == mask ==> MarkAxes(mask, fields, k) & ALL_AXES == MarkAxes(mask, fields, k)
  {
    if fields != [] {
      var init := fields[..|fields| - 1];
      MarkAxesMean(mask, init, k, u);
      OneMoreAxis(MarkAxes(mask, init, k), fields[|fields| - 1], k, u);
      if mask & ALL_AXES == mask { AxesFit(MarkAxes(mask, init, k), fields[|fields| - 1], k); }
      assert forall j :: 0 <= j < |init| ==> fields[j] == init[j];
    }
  }

  lemma MoreSources(fields: seq<Field>, sources: seq<nat>, k: nat, b: Button, u: Usage)
    ensures ButtonIn(fields, sources + [k], b) <==> ButtonIn(fields, sources, b) || ButtonIn(fields, [k], b)
    ensures AxisIn(fields, sources + [k], u) <==> AxisIn(fields, sources, u) || AxisIn(fields, [k], u)
  {
  }

  lemma MoreButtons(fields: seq<Field>, sources: seq<nat>, buttons: bv8, k: nat)
    requires CoversButtons(fields, sources, buttons)
    ensures CoversButtons(fields, sources + [k], MarkButtons(buttons, fields, k))
  {
    var more := MarkButtons(buttons, fields, k);
    MarkButtonsMeans(buttons, fields, k, 0);
    forall b: Button
      ensures Has(more, b) <==> ButtonIn(fields, sources + [k], b)
    {
      MarkButtonsMeans(buttons, fields, k, b);
      MoreSources(fields, sources, k, b, MouseX);
    }
  }

  lemma MoreAxes(fields: seq<Field>, sources: seq<nat>, axes: bv8, k: nat)
    requires CoversAxes(fields, sources, axes)
    ensures CoversAxes(fields, sources + [k], MarkAxes(axes, fields, k))
  {
    var more := MarkAxes(axes, fields, k);
    MarkAxesMean(axes, fields, k, MouseX);
    forall u: Usage | u != MouseButton
      ensures Has(more, AxisBit(u)) <==> AxisIn(fields, sources + [k], u)
    {
      MarkAxesMean(axes, fields, k, u);
      MoreSources(fields, sources, k, 0, u);
    }
  }

  /** Subscribing to one more report covers exactly its fields besides. */
  lemma CoverOneMore(fields: seq<Field>, sources: seq<nat>, buttons: bv8, axes: bv8, k: nat)
    requires Covers(fields, sources, buttons, axes)
    ensures Covers(fields, sources + [k], MarkButtons(buttons, fields, k), MarkAxes(axes, fields, k))
  {
    MoreButtons(fields, sources, buttons, k);
    MoreAxes(fields, sources, axes, k);
  }

  ghost predicate Complete(fields: seq<Field>, sources: seq<nat>) {
    (forall b: Button :: ButtonIn(fields, sources, b)) && forall u: Usage :: u != MouseButton ==> AxisIn(fields, sources, u)
  }

  lemma AllAxesExactly(axes: bv8)
    requires axes & ALL_AXES == axes
    ensures axes == ALL_AXES <==> forall u: Usage :: u != MouseButton ==> Has(axes, AxisBit(u))
  {
    if forall u: Usage :: u != MouseButton ==> Has(axes, AxisBit(u)) {
      assert AxisBit(MouseX) == 0 && AxisBit(MouseY) == 1 && AxisBit(MouseWheel) == 2 && AxisBit(MousePan) == 3;
      assert Has(axes, 0) && Has(axes, 1) && Has(axes, 2) && Has(axes, 3);
    } else {
      var u: Usage :| u != MouseButton && !Has(axes, AxisBit(u));
      HasAllAxes(AxisBit(u));
    }
  }

  lemma HasAllAxes(i: nat)
    requires i < 4
    ensures Has(ALL_AXES, i)
  {
  }

  /** The two masks are full exactly when every button and every axis is among the subscribed fields. */
  lemma FullMasksExactly(fields: seq<Field>, sources: seq<nat>, buttons: bv8, axes: bv8)
    requires Covers(fields, sources, buttons, axes)
    ensures buttons == ALL_BUTTONS && axes == ALL_AXES <==> Complete(fields, sources)
  {
    HasAllExactly(buttons);
    AllAxesExactly(axes);
  }
}
