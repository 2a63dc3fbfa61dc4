/** One bit more than always exact: a descriptor that the parser accepts, and when its X axis is still exact. */
module HidWide {
  import opened Bits
  import opened HidMap
  import opened HidParser
  import opened HidDecode
  import opened HidDescribe
  import opened HidDescriptors
  import opened HidRoundTrip
  import HidInvariant

  const RELATIVE: byte := 6

  // `n` unsigned 27-bit X fields, named by one repeated usage, and one Y field, in one report.
  function XGroup(n: nat): Group {
    Group(1, 0, 27, RELATIVE, ONE_LISTED, seq(n, _ => PointerX))
  }

  const Y_GROUP := Group(1, -1, 8, RELATIVE, ONE_LISTED, [PointerY])

  function Wide(n: nat): seq<Element> {
    [Open(APPLICATION, MOUSE)] + [Input(XGroup(n))] + [Input(Y_GROUP)] + [Close]
  }

  function XField(k: nat): Field {
    Field(27 * k, 27, 0, MouseX, 0, false)
  }

  function XFields(n: nat): seq<Field> {
    seq(n, k requires 0 <= k < n => XField(k))
  }

  lemma {:induction false} XFieldsAre(n: nat, k: nat)
    requires k <= n
    ensures GroupFields(XGroup(n), true, 0, 0, k) == XFields(k)
  {
    if k > 0 {
      XFieldsAre(n, k - 1);
      assert XFields(k) == XFields(k - 1) + [XField(k - 1)];
      assert SlotFields(XGroup(n), true, 0, 0, k - 1) == [XField(k - 1)];
    }
  }

  lemma {:induction false} XSums(n: nat)
    ensures Sized(XFields(n)) && |XFields(n)| == n
    ensures MostSum(XFields(n), 0, MouseX) == n * 0x7ff_ffff && LeastSum(XFields(n), 0, MouseX) == 0
  {
    if n > 0 {
      XSums(n - 1);
      assert XFields(n)[..n - 1] == XFields(n - 1);
      Pow2Splits(26, 1);
      Pow2Values();
      assert Most(XFields(n)[n - 1]) == 0x7ff_ffff;
    }
  }

  lemma YFields(bit: nat)
    ensures GroupFields(Y_GROUP, true, bit, 0, 1) == [Field(bit, 8, 0, MouseY, 0, true)]
  {
    assert GroupFields(Y_GROUP, true, bit, 0, 0) == [];
    assert SlotFields(Y_GROUP, true, bit, 0, 0) == [Field(bit, 8, 0, MouseY, 0, true)];
  }

  lemma XDescribed(n: nat)
    requires 1 <= n <= 18
    ensures var es := [Open(APPLICATION, MOUSE)] + [Input(XGroup(n))];
            && Legal(es) && Ids(es) == [1] && BitsOf(es, 1) == 27 * n && FieldsOf(es) == XFields(n) && Enclosing(es) == [MOUSE]
  {
    var es := [Open(APPLICATION, MOUSE)];
    OpenMouse();
    OneMoreInput(es, XGroup(n));
    assert IndexOf([1], 1) == 0;
    XFieldsAre(n, n);
  }

  lemma YDescribed(n: nat)
    requires 1 <= n <= 18
    ensures var es := [Open(APPLICATION, MOUSE)] + [Input(XGroup(n))] + [Input(Y_GROUP)];
            && Legal(es) && Ids(es) == [1] && Enclosing(es) == [MOUSE]
            && FieldsOf(es) == XFields(n) + [Field(27 * n, 8, 0, MouseY, 0, true)]
  {
    var es := [Open(APPLICATION, MOUSE)] + [Input(XGroup(n))];
    XDescribed(n);
    OneMoreInput(es, Y_GROUP);
    assert IndexOf([1], 1) == 0;
    YFields(27 * n);
  }

  lemma WideWritable(n: nat)
    requires 1 <= n <= 18
    ensures AllWritable(Wide(n))
  {
    assert Writable(XGroup(n)) && Writable(Y_GROUP);
  }

  lemma WideFits(n: nat)
    requires 1 <= n <= 18
    ensures Legal(Wide(n)) && Enclosing(Wide(n)) == [] && Ids(Wide(n)) == [1]
    ensures FieldsOf(Wide(n)) == XFields(n) + [Field(27 * n, 8, 0, MouseY, 0, true)]
  {
    var es := [Open(APPLICATION, MOUSE)] + [Input(XGroup(n))] + [Input(Y_GROUP)];
    YDescribed(n);
    OneMoreElement(es, Close);
    assert (es + [Close])[..|es|] == es;
  }

  lemma ElsewhereSums(fields: seq<Field>, f: Field)
    requires Sized(fields) && 1 <= f.size <= 32 && f.usage != MouseX
    ensures Sized(fields + [f])
    ensures MostSum(fields + [f], 0, MouseX) == MostSum(fields, 0, MouseX)
    ensures LeastSum(fields + [f], 0, MouseX) == LeastSum(fields, 0, MouseX)
  {
    assert (fields + [f])[..|fields|] == fields;
  }

  lemma WideSums(n: nat)
    requires 1 <= n <= 18
    ensures Sized(FieldsOf(Wide(n)))
    ensures MostSum(FieldsOf(Wide(n)), 0, MouseX) == n * 0x7ff_ffff
    ensures LeastSum(FieldsOf(Wide(n)), 0, MouseX) == 0
  {
    XSums(n);
    WideFits(n);
    ElsewhereSums(XFields(n), Field(27 * n, 8, 0, MouseY, 0, true));
  }

  /**
   A descriptor of up to 18 unsigned 27-bit X fields and a Y field is accepted, and its X axis decodes
   exactly if and only if it has at most sixteen of them.
   */
  lemma WideIsExactUpTo16(n: nat)
    requires 1 <= n <= 18
    ensures AllWritable(Wide(n))
    ensures var r := Parse(Describe(Wide(n)));
            && r.status == Ok && WellFormed(r.layout) && |r.layout.reports| == 1
            && (AlwaysExact(r.layout, 0, MouseX, NO_FRAME) <==> n <= 16)
  {
    WideFits(n);
    WideWritable(n);
    BothAxes(n);
    DescribeRoundTrip(Wide(n));
    var m := Parse(Describe(Wide(n))).layout;
    HidInvariant.ParseWellFormed(Describe(Wide(n)), START);
    WideSums(n);
    ExactIff(m, 0, MouseX, NO_FRAME);
  }

  lemma BothAxes(n: nat)
    requires 1 <= n <= 18
    ensures Points(Wide(n))
  {
    WideFits(n);
    var fields := FieldsOf(Wide(n));
    assert fields[0].usage == MouseX && fields[|fields| - 1].usage == MouseY;
  }
}
