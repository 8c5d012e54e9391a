/**
 * The gap report: candidate values are normalised to canonical units, grouped
 * per field by a rounded key, one representative (the most confident, first
 * seen on ties) is kept per group, and the best five per field go into the
 * prompt; the LLM's reply is validated and its summary counts recomputed, and
 * any failure yields the stub report. The candidate log and the winners are the
 * parsed artifact files; the LLM reply and the clock are parameters.
 */
module GapReport {
  import opened Py
  import opened StableSort
  import opened LlmClient
  import opened ProtocolCard

  // ------------------------------------------------------------ normalisation

  /** The fields `_norm_units_value` and `_group_key` treat alike. */
  datatype FieldKind = Length | Kvp | Exposure | Voxel | Matrix | Kernel | OtherField

  /** The dispatch on the field name: thickness and field of view, tube
      voltage, exposure, voxel size, matrix, the two kernel fields, the rest. */
  function KindOf(field: Value): FieldKind {
    if field == Str("slice_thickness_mm") || field == Str("fov_mm") then Length
    else if field == Str("kVp") then Kvp
    else if field == Str("mAs") then Exposure
    else if field == Str("voxel_size_mm") then Voxel
    else if field == Str("matrix") then Matrix
    else if field == Str("kernel") || field == Str("kernel_family") then Kernel
    else OtherField
  }

  predicate IsCentimetre(u: string) { u == "cm" || u == "centimeter" || u == "centimeters" }

  predicate IsMicrometre(u: string) { u == "\U{00B5}m" || u == "um" || u == "micrometer" || u == "micrometers" }

  /** A thickness or field of view in millimetres, given its lower-cased unit. */
  function ScaleToMm(v: real, u: string): (r: real)
    ensures IsCentimetre(u) ==> r == v * 10.0
    ensures IsMicrometre(u) ==> r == v / 1000.0
    ensures !IsCentimetre(u) && !IsMicrometre(u) ==> r == v
  {
    var w := if IsCentimetre(u) then v * 10.0 else v;
    if IsMicrometre(u) then w / 1000.0 else w
  }

  /** `float()` of each element; None when one of them is rejected. */
  function FloatsOf(xs: seq<Value>): (r: Option<seq<real>>)
    ensures r.Some? ==> |r.value| == |xs| && forall i :: 0 <= i < |xs| ==> ToFloat(xs[i]) == Ok(r.value[i])
    ensures r.None? ==> exists i :: 0 <= i < |xs| && ToFloat(xs[i]).Raised?
  {
    if xs == [] then Some([])
    else
      var n := |xs| - 1;
      match FloatsOf(xs[..n])
      case None => None
      case Some(a) => match ToFloat(xs[n]) case Ok(v) => Some(a + [v]) case Raised => None
  }

  function RealValues(xs: seq<real>): (r: seq<Value>)
    ensures |r| == |xs| && forall i :: 0 <= i < |xs| ==> r[i] == Real(xs[i])
  {
    seq(|xs|, i requires 0 <= i < |xs| => Real(xs[i]))
  }

  /** The voxel size of a list: its floats, a 2-list padded with its last element
      for comparison; any other length or an unparsable element gives None. */
  function VoxelListValue(items: seq<Value>): (r: Value)
    ensures r == Null || (IsList(r, 3) && AllReal(r.items))
  {
    match FloatsOf(items)
    case None => Null
    case Some(xs) =>
      var ys := if |xs| == 2 then xs + [xs[1]] else xs;
      if |ys| == 3 then Arr(RealValues(ys)) else Null
  }

  /** Two integers, or None when either conversion raised. */
  function IntPair(a: Outcome<int>, b: Outcome<int>): (r: Value)
    ensures r == Null || (IsList(r, 2) && AllInt(r.items))
    ensures a.Ok? && b.Ok? ==> r == Arr([Int(a.value), Int(b.value)])
  {
    if a.Ok? && b.Ok? then Arr([Int(a.value), Int(b.value)]) else Null
  }

  /** `a, b = s.split("x")` then `int(a.strip()), int(b.strip())`; `int()`
      strips its argument itself. */
  function MatrixParts(parts: seq<string>): (r: Value)
    ensures r == Null || (IsList(r, 2) && AllInt(r.items))
  {
    if |parts| != 2 then Null else IntPair(ParseInt(parts[0]), ParseInt(parts[1]))
  }

  /** `str(value).lower().replace("×", "x")` split on `x` into exactly two integers. */
  function MatrixText(value: Value): (r: Value)
    ensures r == Null || (IsList(r, 2) && AllInt(r.items))
  {
    MatrixParts(SplitChar(ReplaceChar(Lower(Render(value)), '\U{00D7}', 'x'), 'x'))
  }

  /** A thickness or field of view: a float in millimetres. */
  function LengthValue(value: Value, u: string): Value {
    match ToFloat(value) case Ok(v) => Real(ScaleToMm(v, u)) case Raised => Null
  }

  /** A tube voltage: `int()` of the float, truncating toward zero. */
  function KvpValue(value: Value): Value {
    match ToFloat(value) case Ok(v) => Int(Trunc(v)) case Raised => Null
  }

  function FloatValue(value: Value): Value {
    match ToFloat(value) case Ok(v) => Real(v) case Raised => Null
  }

  /** A scalar voxel size stands for an isotropic voxel. */
  function VoxelScalarValue(value: Value): (r: Value)
    ensures r == Null || (IsList(r, 3) && AllReal(r.items))
  {
    match ToFloat(value) case Ok(v) => Arr([Real(v), Real(v), Real(v)]) case Raised => Null
  }

  /** A matrix: a 2-list of integers, or text of the form `512x512`. */
  function MatrixValue(value: Value): (r: Value)
    ensures r == Null || (IsList(r, 2) && AllInt(r.items))
  {
    if IsList(value, 2) then IntPair(ToInt(value.items[0]), ToInt(value.items[1]))
    else MatrixText(value)
  }

  /** A kernel name: the value as text, trimmed. */
  function KernelValue(value: Value): Value {
    Str(Strip(Render(value)))
  }

  /** The branches of `_norm_units_value` other than the voxel list loop; `u`
      is the unit trimmed and lower-cased. */
  function ScalarNorm(kind: FieldKind, value: Value, u: string): Value {
    if kind == Length then LengthValue(value, u)
    else if kind == Kvp then KvpValue(value)
    else if kind == Exposure then FloatValue(value)
    else if kind == Voxel then VoxelScalarValue(value)
    else if kind == Matrix then MatrixValue(value)
    else if kind == Kernel then KernelValue(value)
    else value
  }

  /** `_norm_units_value` for a field of the given kind; `Null` stands for Python's None. */
  function NormalizedValue(kind: FieldKind, value: Value, units: string): Value {
    if kind == Voxel && value.Arr? then VoxelListValue(value.items)
    else ScalarNorm(kind, value, Lower(Strip(units)))
  }

  lemma {:induction false} FloatsOfRejects(xs: seq<Value>, i: nat)
    requires i < |xs| && ToFloat(xs[i]).Raised?
    ensures FloatsOf(xs) == None
  {
  }

  /** The voxel branch of `_norm_units_value` for a list: each element through
      `_to_float`, stopping at the first that fails; a pair is padded with its
      last element; anything but three values is rejected. */
  method VoxelFromList(items: seq<Value>) returns (r: Value)
    ensures r == VoxelListValue(items)
  {
    var floats := FloatsLoop(items);
    if floats.None? {
      return Null;
    }
    var out := floats.value;
    if |out| == 2 {
      out := out + [out[1]];
    }
    if |out| != 3 {
      return Null;
    }
    return Arr(RealValues(out));
  }

  /** The conversion loop of the voxel branch, stopping at the first failure. */
  method FloatsLoop(items: seq<Value>) returns (r: Option<seq<real>>)
    ensures r == FloatsOf(items)
  {
    var out: seq<real> := [];
    for i := 0 to |items|
      invariant FloatsOf(items[..i]) == Some(out)
    {
      FloatsOfStep(items, i);
      var fv := ToFloat(items[i]);
      if fv.Raised? {
        FloatsOfRejects(items, i);
        return None;
      }
      out := out + [fv.value];
    }
    assert items[..|items|] == items;
    r := Some(out);
  }

  lemma {:induction false} FloatsOfStep(items: seq<Value>, i: int)
    requires 0 <= i < |items| && FloatsOf(items[..i]).Some?
    ensures FloatsOf(items[..i + 1]) ==
      match ToFloat(items[i]) case Ok(v) => Some(FloatsOf(items[..i]).value + [v]) case Raised => None
  {
    assert items[..i + 1][..i] == items[..i];
  }

  /** `_norm_units_value`. */
  method NormUnitsValue(kind: FieldKind, value: Value, units: string) returns (r: Value)
    ensures r == NormalizedValue(kind, value, units)
  {
    if kind == Voxel && value.Arr? {
      r := VoxelFromList(value.items);
    } else {
      var u := Lower(Strip(units));
      r := ScalarNorm(kind, value, u);
    }
  }

  /**
   * The voxel size normalises to three floats or to None: a number `v` gives
   * `[v, v, v]`, a 2-list `[a, b]` gives `[a, b, b]`, a 3-list keeps its values,
   * and any other length or an unparsable element gives None.
   */
  lemma {:induction false} VoxelNormalized(value: Value, units: string)
    ensures var r := NormalizedValue(Voxel, value, units);
      (r == Null || (IsList(r, 3) && AllReal(r.items)))
      && (!value.Arr? && ToFloat(value).Ok? ==> r == Arr([Real(ToFloat(value).value), Real(ToFloat(value).value), Real(ToFloat(value).value)]))
      && (value.Arr? && FloatsOf(value.items).Some? && |value.items| == 2 ==>
            r == Arr([Real(FloatsOf(value.items).value[0]), Real(FloatsOf(value.items).value[1]), Real(FloatsOf(value.items).value[1])]))
      && (value.Arr? && FloatsOf(value.items).Some? && |value.items| == 3 ==> r == Arr(RealValues(FloatsOf(value.items).value)))
      && (value.Arr? && |value.items| != 2 && |value.items| != 3 ==> r == Null)
      && (value.Arr? && (exists i :: 0 <= i < |value.items| && ToFloat(value.items[i]).Raised?) ==> r == Null)
  {
    if value.Arr? {
      VoxelListNormalized(value.items, units);
    }
  }

  /** The list cases of `VoxelNormalized`. */
  lemma {:induction false} VoxelListNormalized(xs: seq<Value>, units: string)
    ensures var r := NormalizedValue(Voxel, Arr(xs), units);
      (r == Null || (IsList(r, 3) && AllReal(r.items)))
      && (FloatsOf(xs).Some? && |xs| == 2 ==>
            r == Arr([Real(FloatsOf(xs).value[0]), Real(FloatsOf(xs).value[1]), Real(FloatsOf(xs).value[1])]))
      && (FloatsOf(xs).Some? && |xs| == 3 ==> r == Arr(RealValues(FloatsOf(xs).value)))
      && (|xs| != 2 && |xs| != 3 ==> r == Null)
      && ((exists i :: 0 <= i < |xs| && ToFloat(xs[i]).Raised?) ==> r == Null)
  {
    var fs := FloatsOf(xs);
    if exists i :: 0 <= i < |xs| && ToFloat(xs[i]).Raised? {
      var i :| 0 <= i < |xs| && ToFloat(xs[i]).Raised?;
      FloatsOfRejects(xs, i);
    }
    if fs.Some? && |xs| == 2 {
      var ys := fs.value + [fs.value[1]];
      assert RealValues(ys) == [Real(ys[0]), Real(ys[1]), Real(ys[2])];
    }
  }

  /** A matrix given as a list of two numbers keeps them, as integers. */
  lemma {:induction false} MatrixPairKept(a: Value, b: Value)
    requires ToInt(a).Ok? && ToInt(b).Ok?
    ensures MatrixValue(Arr([a, b])) == Arr([Int(ToInt(a).value), Int(ToInt(b).value)])
  {
    assert IsList(Arr([a, b]), 2);
  }

  /** The separators a matrix may be written with. */
  predicate MatrixSeparator(x: char) { x == 'x' || x == 'X' || x == '\U{00D7}' }

  /** Digits are unchanged by lower-casing and by replacing `×` with `x`, and a
      separator becomes `x`. */
  lemma {:induction false} MatrixTextNormal(t: string, n: string)
    requires |t| == |n|
    requires forall i :: 0 <= i < |t| ==> (IsDigit(t[i]) && n[i] == t[i]) || (MatrixSeparator(t[i]) && n[i] == 'x')
    ensures ReplaceChar(Lower(t), '\U{00D7}', 'x') == n
  {
  }

  /** Text of the form `<digits>x<digits>`, the `x` in either case or written
      `×`, reads as those two integers; with a third dimension it is rejected. */
  lemma {:induction false} MatrixFromText(a: string, b: string, x: char)
    requires a != [] && b != [] && AllDigits(a) && AllDigits(b) && MatrixSeparator(x)
    ensures MatrixValue(Str(a + [x] + b)) == Arr([Int(DigitsValue(a)), Int(DigitsValue(b))])
    ensures MatrixValue(Str(a + [x] + b + [x] + a)) == Null
  {
    MatrixTwoParts(a, b, x);
    MatrixThreeParts(a, b, x);
  }

  lemma {:induction false} MatrixTwoParts(a: string, b: string, x: char)
    requires a != [] && b != [] && AllDigits(a) && AllDigits(b) && MatrixSeparator(x)
    ensures MatrixValue(Str(a + [x] + b)) == Arr([Int(DigitsValue(a)), Int(DigitsValue(b))])
  {
    var t := a + [x] + b;
    assert SplitChar(ReplaceChar(Lower(t), '\U{00D7}', 'x'), 'x') == [a, b] by {
      MatrixTextNormal(t, a + ['x'] + b);
      assert 'x' !in a && 'x' !in b;
      SplitFirst(a, b, 'x');
      SplitNoSeparator(b, 'x');
    }
    assert MatrixText(Str(t)) == MatrixParts([a, b]) by {
      assert Render(Str(t)) == t;
    }
    ParseDigits(a);
    ParseDigits(b);
  }

  lemma {:induction false} MatrixThreeParts(a: string, b: string, x: char)
    requires a != [] && b != [] && AllDigits(a) && AllDigits(b) && MatrixSeparator(x)
    ensures MatrixValue(Str(a + [x] + b + [x] + a)) == Null
  {
    var t := a + [x] + b + [x] + a;
    assert |SplitChar(ReplaceChar(Lower(t), '\U{00D7}', 'x'), 'x')| == 3 by {
      var n := a + ['x'] + b + ['x'] + a;
      MatrixTextNormal(t, n);
      assert n == a + ['x'] + (b + ['x'] + a);
      assert 'x' !in a && 'x' !in b;
      SplitFirst(a, b + ['x'] + a, 'x');
      SplitFirst(b, a, 'x');
      SplitNoSeparator(a, 'x');
    }
    assert Render(Str(t)) == t;
  }

  /**
   * Thickness and field of view are compared in millimetres: a value in
   * centimetres normalises as ten times that value in millimetres, and one in
   * micrometres as a thousandth of it (`u` and `mm` are units already trimmed
   * and lower-cased, `mm` neither centimetres nor micrometres).
   */
  lemma {:induction false} UnitsToMillimetres(v: real, u: string, mm: string)
    requires !IsCentimetre(mm) && !IsMicrometre(mm)
    ensures IsCentimetre(u) ==> ScalarNorm(Length, Real(v), u) == ScalarNorm(Length, Real(10.0 * v), mm)
    ensures IsMicrometre(u) ==> ScalarNorm(Length, Real(v), u) == ScalarNorm(Length, Real(v / 1000.0), mm)
    ensures ScalarNorm(Length, Real(v), mm) == Real(v)
  {
    assert ScalarNorm(Length, Real(v), u) == LengthValue(Real(v), u);
    assert ScalarNorm(Length, Real(v), mm) == LengthValue(Real(v), mm);
    assert ScalarNorm(Length, Real(10.0 * v), mm) == LengthValue(Real(10.0 * v), mm);
    assert ScalarNorm(Length, Real(v / 1000.0), mm) == LengthValue(Real(v / 1000.0), mm);
  }

  // ------------------------------------------------------------ group keys

  function NumberKey(nv: Value): Outcome<Option<Key>> {
    match ToFloat(nv) case Ok(x) => Ok(Some(KNum(Round3(x)))) case Raised => Raised
  }

  function KvpKey(nv: Value): Outcome<Option<Key>> {
    match ToInt(nv) case Ok(n) => Ok(Some(KNum(n as real))) case Raised => Raised
  }

  /** A list as a tuple of floats rounded to three decimals; not a list: None. */
  function FloatTupleKey(nv: Value): Outcome<Option<Key>> {
    if !nv.Arr? then Ok(None)
    else if forall i :: 0 <= i < |nv.items| ==> ToFloat(nv.items[i]).Ok? then
      Ok(Some(KTuple(seq(|nv.items|, i requires 0 <= i < |nv.items| => Round3(ToFloat(nv.items[i]).value)))))
    else Raised
  }

  /** A list as a tuple of integers; not a list: None. */
  function IntTupleKey(nv: Value): Outcome<Option<Key>> {
    if !nv.Arr? then Ok(None)
    else if forall i :: 0 <= i < |nv.items| ==> ToInt(nv.items[i]).Ok? then
      Ok(Some(KTuple(seq(|nv.items|, i requires 0 <= i < |nv.items| => ToInt(nv.items[i]).value as real))))
    else Raised
  }

  function KernelKey(nv: Value): Outcome<Option<Key>> {
    Ok(Some(KStr(Lower(Strip(Render(nv))))))
  }

  /** Any other value is its own key, which raises at the dict lookup when it is a list or a dict. */
  function ValueKey(nv: Value): Outcome<Option<Key>> {
    match HashKey(nv) case Ok(k) => Ok(Some(k)) case Raised => Raised
  }

  /** `_group_key` of a normalised value. */
  function GroupKey(kind: FieldKind, nv: Value): (r: Outcome<Option<Key>>)
    ensures nv == Null ==> r == Ok(None)
  {
    if nv == Null then Ok(None)
    else if kind == Kernel then KernelKey(nv)
    else if kind == OtherField then ValueKey(nv)
    else if kind == Voxel then FloatTupleKey(nv)
    else if kind == Matrix then IntTupleKey(nv)
    else if kind == Kvp then KvpKey(nv)
    else NumberKey(nv)
  }

  /** Kernel names group case-insensitively and regardless of padding. */
  lemma {:induction false} KernelKeyIgnoresCase(a: string, b: string)
    requires Lower(Strip(a)) == Lower(Strip(b))
    ensures GroupKey(Kernel, KernelValue(Str(a))) == GroupKey(Kernel, KernelValue(Str(b)))
    ensures GroupKey(Kernel, KernelValue(Str(a))) == Ok(Some(KStr(Lower(Strip(a)))))
  {
    KernelKeyOf(a);
    KernelKeyOf(b);
  }

  lemma {:induction false} KernelKeyOf(a: string)
    ensures GroupKey(Kernel, KernelValue(Str(a))) == Ok(Some(KStr(Lower(Strip(a)))))
  {
    KernelValueOf(a);
    StripTwice(a);
    KernelGroupKey(Strip(a));
  }

  lemma {:induction false} KernelValueOf(a: string)
    ensures KernelValue(Str(a)) == Str(Strip(a))
  {
    assert Render(Str(a)) == a;
  }

  lemma {:induction false} KernelGroupKey(s: string)
    ensures GroupKey(Kernel, Str(s)) == Ok(Some(KStr(Lower(Strip(s)))))
  {
    assert Render(Str(s)) == s;
  }

  /** Thicknesses, fields of view and exposures given in millimetres (or
      unitless) that round to the same thousandth fall in one group. */
  lemma {:induction false} NumericKeyRounds(kind: FieldKind, x: real, y: real, mm: string)
    requires kind == Length || kind == Exposure
    requires !IsCentimetre(mm) && !IsMicrometre(mm)
    requires Round3(x) == Round3(y)
    ensures GroupKey(kind, ScalarNorm(kind, Real(x), mm)) == GroupKey(kind, ScalarNorm(kind, Real(y), mm))
    ensures GroupKey(kind, ScalarNorm(kind, Real(x), mm)) == Ok(Some(KNum(Round3(x))))
  {
  }

  // ------------------------------------------------------------ representatives

  /** A stored representative of a group. */
  datatype Rep = Rep(value: Value, normValue: Value, page: int, confidence: real, evidence: string, units: string)

  /** The groups of one field, keyed in first-insertion order as a Python dict keeps them. */
  type Bucket = seq<(Key, Rep)>

  function RepOf(c: Candidate): (r: Rep)
    ensures r.confidence == c.confidence && r.page == c.page && r.value == c.value && r.units == c.units
    ensures r.evidence == (if |c.evidence| <= 200 then c.evidence else c.evidence[..200])
  {
    Rep(c.value, NormalizedValue(KindOf(c.field), c.value, c.units), c.page, c.confidence, Prefix(c.evidence, 200), c.units)
  }

  /** The (field, group) a candidate falls in; None when it is skipped (no field,
      or no group key); Raised when the field or the key cannot be hashed. */
  function Cluster(c: Candidate): Outcome<Option<(Key, Key)>> {
    if !Truthy(c.field) then Ok(None)
    else
      match GroupKey(KindOf(c.field), NormalizedValue(KindOf(c.field), c.value, c.units))
      case Raised => Raised
      case Ok(None) => Ok(None)
      case Ok(Some(k)) =>
        match HashKey(c.field)
        case Raised => Raised
        case Ok(fk) => Ok(Some((fk, k)))
  }

  /** How candidates are assigned to groups and turned into representatives;
      the lemmas below hold for any assignment, `Cluster` and `RepOf` among them. */
  type Clustering = Candidate -> Outcome<Option<(Key, Key)>>

  predicate HasKey(b: Bucket, k: Key) { exists j :: 0 <= j < |b| && b[j].0 == k }

  predicate DistinctKeys(b: Bucket) { forall i, j :: 0 <= i < j < |b| ==> b[i].0 != b[j].0 }

  /** `repmap.get(key)`: the position of `k` in the bucket. */
  function FindKey(b: Bucket, k: Key): (r: Option<nat>)
    ensures r.Some? ==> r.value < |b| && b[r.value].0 == k
    ensures r.None? ==> !HasKey(b, k)
  {
    if b == [] then None
    else if b[|b| - 1].0 == k then Some(|b| - 1)
    else FindKey(b[..|b| - 1], k)
  }

  /** One candidate offered to its group: a new group stores it; an existing one
      is replaced only by a strictly more confident candidate. */
  function Offer(b: Bucket, k: Key, rep: Rep): Bucket {
    match FindKey(b, k)
    case None => b + [(k, rep)]
    case Some(i) => if rep.confidence > b[i].1.confidence then b[i := (k, rep)] else b
  }

  function BucketOf(m: map<Key, Bucket>, fk: Key): Bucket {
    if fk in m then m[fk] else []
  }

  /** The groups after offering `r` to the group `cl` names, if any. */
  function OfferTo(m: map<Key, Bucket>, cl: Option<(Key, Key)>, r: Rep): map<Key, Bucket> {
    match cl
    case None => m
    case Some((fk, k)) => m[fk := Offer(BucketOf(m, fk), k, r)]
  }

  /** One pass over the candidates, offering each to its group. */
  function RepsWith(cands: seq<Candidate>, cluster: Clustering, rep: Candidate -> Rep): Outcome<map<Key, Bucket>> {
    if cands == [] then Ok(map[])
    else
      var c := cands[|cands| - 1];
      match RepsWith(cands[..|cands| - 1], cluster, rep)
      case Raised => Raised
      case Ok(m) =>
        match cluster(c)
        case Raised => Raised
        case Ok(cl) => Ok(OfferTo(m, cl, rep(c)))
  }

  /** A pass that succeeds succeeded on every shorter prefix, and its last step is one offer. */
  lemma {:induction false} RepsWithLast(cands: seq<Candidate>, cluster: Clustering, rep: Candidate -> Rep)
    requires cands != [] && RepsWith(cands, cluster, rep).Ok?
    ensures var init := cands[..|cands| - 1];
      var c := cands[|cands| - 1];
      RepsWith(init, cluster, rep).Ok? && cluster(c).Ok?
      && RepsWith(cands, cluster, rep).value == OfferTo(RepsWith(init, cluster, rep).value, cluster(c).value, rep(c))
  {
  }

  /** `_representatives_by_field` after the candidates `cands`. */
  function RepsOf(cands: seq<Candidate>): Outcome<map<Key, Bucket>> {
    RepsWith(cands, Cluster, RepOf)
  }

  lemma {:induction false} RepsRaisedPersists(cands: seq<Candidate>, i: nat)
    requires i <= |cands| && RepsOf(cands[..i]).Raised?
    ensures RepsOf(cands).Raised?
    decreases |cands| - i
  {
    if i < |cands| {
      assert cands[..i + 1][..i] == cands[..i];
      RepsRaisedPersists(cands, i + 1);
    } else {
      assert cands[..i] == cands;
    }
  }

  /** `_representatives_by_field`: one pass over the candidates, updating the
      group of each in place. */
  method RepresentativesByField(cands: seq<Candidate>) returns (r: Outcome<map<Key, Bucket>>)
    ensures r == RepsOf(cands)
  {
    var byField: map<Key, Bucket> := map[];
    for i := 0 to |cands|
      invariant RepsOf(cands[..i]) == Ok(byField)
    {
      RepsOfStep(cands, i);
      var c := cands[i];
      var cl := Cluster(c);
      if cl.Raised? {
        RepsRaisedPersists(cands, i + 1);
        return Raised;
      }
      if cl.value.None? {
        continue;
      }
      var (fk, k) := cl.value.value;
      byField := OfferInPlace(byField, fk, k, RepOf(c));
    }
    assert cands[..|cands|] == cands;
    r := Ok(byField);
  }

  lemma {:induction false} RepsOfStep(cands: seq<Candidate>, i: int)
    requires 0 <= i < |cands|
    ensures RepsOf(cands[..i + 1]) ==
      match RepsOf(cands[..i])
      case Raised => Raised
      case Ok(m) => (match Cluster(cands[i]) case Raised => Raised case Ok(cl) => Ok(OfferTo(m, cl, RepOf(cands[i]))))
  {
    assert cands[..i + 1][..i] == cands[..i];
  }

  /** The loop body of `_representatives_by_field`: the group `k` of field `fk`
      keeps its stored candidate unless `rep` is strictly more confident. */
  method OfferInPlace(byField: map<Key, Bucket>, fk: Key, k: Key, rep: Rep) returns (m: map<Key, Bucket>)
    ensures m == OfferTo(byField, Some((fk, k)), rep)
  {
    var repmap := if fk in byField then byField[fk] else [];
    var prev := FindKey(repmap, k);
    if prev.None? {
      repmap := repmap + [(k, rep)];
    } else if rep.confidence > repmap[prev.value].1.confidence {
      repmap := repmap[prev.value := (k, rep)];
    }
    m := byField[fk := repmap];
  }

  lemma {:induction false} OfferDistinct(b: Bucket, k: Key, rep: Rep)
    requires DistinctKeys(b)
    ensures DistinctKeys(Offer(b, k, rep))
  {
  }

  lemma {:induction false} OfferOther(b: Bucket, k: Key, rep: Rep, k2: Key)
    requires k2 != k
    ensures HasKey(Offer(b, k, rep), k2) <==> HasKey(b, k2)
    ensures forall x :: (k2, x) in Offer(b, k, rep) <==> (k2, x) in b
  {
    var o := Offer(b, k, rep);
    if FindKey(b, k).None? {
      assert o == b + [(k, rep)];
      if HasKey(o, k2) {
        var j :| 0 <= j < |o| && o[j].0 == k2;
        assert j < |b| && b[j].0 == k2;
      }
      if HasKey(b, k2) {
        var j :| 0 <= j < |b| && b[j].0 == k2;
        assert o[j].0 == k2;
      }
    } else {
      var i := FindKey(b, k).value;
      forall j | 0 <= j < |o| ensures (o[j].0 == k2 <==> b[j].0 == k2) && (o[j].0 == k2 ==> o[j] == b[j]) {
      }
      if HasKey(o, k2) {
        var j :| 0 <= j < |o| && o[j].0 == k2;
        assert b[j].0 == k2;
      }
      if HasKey(b, k2) {
        var j :| 0 <= j < |b| && b[j].0 == k2;
        assert o[j].0 == k2;
      }
      forall x ensures (k2, x) in o <==> (k2, x) in b {
        if (k2, x) in o {
          var j :| 0 <= j < |o| && o[j] == (k2, x);
          assert b[j] == (k2, x);
        }
        if (k2, x) in b {
          var j :| 0 <= j < |b| && b[j] == (k2, x);
          assert o[j] == (k2, x);
        }
      }
    }
  }

  lemma {:induction false} OfferNew(b: Bucket, k: Key, rep: Rep)
    requires !HasKey(b, k)
    ensures (k, rep) in Offer(b, k, rep)
  {
    var o := Offer(b, k, rep);
    assert o[|b|] == (k, rep);
  }

  lemma {:induction false} OfferExisting(b: Bucket, k: Key, rep: Rep, old_: Rep)
    requires DistinctKeys(b) && (k, old_) in b
    ensures rep.confidence > old_.confidence ==> (k, rep) in Offer(b, k, rep)
    ensures !(rep.confidence > old_.confidence) ==> (k, old_) in Offer(b, k, rep)
  {
    var j :| 0 <= j < |b| && b[j] == (k, old_);
    var i := FindKey(b, k).value;
    assert i == j;
    var o := Offer(b, k, rep);
    assert o[i] == (if rep.confidence > old_.confidence then (k, rep) else (k, old_));
  }

  lemma {:induction false} RepsWithDistinct(cands: seq<Candidate>, cluster: Clustering, rep: Candidate -> Rep)
    requires RepsWith(cands, cluster, rep).Ok?
    ensures forall fk :: fk in RepsWith(cands, cluster, rep).value ==> DistinctKeys(RepsWith(cands, cluster, rep).value[fk])
  {
    if cands != [] {
      var init := cands[..|cands| - 1];
      RepsWithLast(cands, cluster, rep);
      RepsWithDistinct(init, cluster, rep);
      var m := RepsWith(init, cluster, rep).value;
      var c := cands[|cands| - 1];
      if cluster(c).value.Some? {
        var (fk, k) := cluster(c).value.value;
        OfferDistinct(BucketOf(m, fk), k, rep(c));
      }
    }
  }

  /** Within every field the groups have pairwise distinct keys. */
  lemma {:induction false} RepsDistinct(cands: seq<Candidate>)
    requires RepsOf(cands).Ok?
    ensures forall fk :: fk in RepsOf(cands).value ==> DistinctKeys(RepsOf(cands).value[fk])
  {
    RepsWithDistinct(cands, Cluster, RepOf);
  }

  /** The position of the most confident candidate of group `k` of field `fk`,
      the first one among equals; None when no candidate falls in the group. */
  function BestIndex(cands: seq<Candidate>, cluster: Clustering, fk: Key, k: Key): (r: Option<nat>)
    ensures r.Some? ==> r.value < |cands| && cluster(cands[r.value]) == Ok(Some((fk, k)))
    ensures r.Some? ==> forall j :: 0 <= j < |cands| && cluster(cands[j]) == Ok(Some((fk, k))) ==>
      cands[j].confidence <= cands[r.value].confidence
    ensures r.Some? ==> forall j :: 0 <= j < r.value && cluster(cands[j]) == Ok(Some((fk, k))) ==>
      cands[j].confidence < cands[r.value].confidence
    ensures r.None? ==> forall j :: 0 <= j < |cands| ==> cluster(cands[j]) != Ok(Some((fk, k)))
  {
    if cands == [] then None
    else
      var n := |cands| - 1;
      var init := cands[..n];
      assert forall j :: 0 <= j < n ==> init[j] == cands[j];
      match BestIndex(init, cluster, fk, k)
      case None => if cluster(cands[n]) == Ok(Some((fk, k))) then Some(n) else None
      case Some(i) =>
        if cluster(cands[n]) == Ok(Some((fk, k))) && cands[n].confidence > cands[i].confidence then Some(n) else Some(i)
  }

  /** What a group's stored representative is after one offer: the offered
      one when the group is new or the offer is strictly more confident. */
  lemma {:induction false} OfferToBest(m0: map<Key, Bucket>, cl: Option<(Key, Key)>, r: Rep, fk: Key, k: Key, prev: Option<Rep>)
    requires DistinctKeys(BucketOf(m0, fk))
    requires prev.None? ==> !HasKey(BucketOf(m0, fk), k)
    requires prev.Some? ==> (k, prev.value) in BucketOf(m0, fk)
    ensures var b := BucketOf(OfferTo(m0, cl, r), fk);
      if cl == Some((fk, k)) then
        (prev.None? || r.confidence > prev.value.confidence ==> (k, r) in b)
        && (prev.Some? && r.confidence <= prev.value.confidence ==> (k, prev.value) in b)
      else
        (prev.None? ==> !HasKey(b, k)) && (prev.Some? ==> (k, prev.value) in b)
  {
    if cl.Some? {
      var (fk2, k2) := cl.value;
      var b0 := BucketOf(m0, fk2);
      if fk2 != fk {
        assert BucketOf(OfferTo(m0, cl, r), fk) == BucketOf(m0, fk);
      } else if k2 != k {
        OfferOther(b0, k2, r, k);
      } else if prev.None? {
        OfferNew(b0, k, r);
      } else {
        OfferExisting(b0, k, r, prev.value);
      }
    }
  }

  /** The representative stored for the best candidate so far, if any. */
  function BestRep(cands: seq<Candidate>, cluster: Clustering, rep: Candidate -> Rep, fk: Key, k: Key): Option<Rep> {
    match BestIndex(cands, cluster, fk, k)
    case None => None
    case Some(i) => Some(rep(cands[i]))
  }

  /** The best candidate after one more: the new one when it falls in the group
      and is strictly more confident than the best so far. */
  lemma {:induction false} BestRepStep(cands: seq<Candidate>, cluster: Clustering, rep: Candidate -> Rep, fk: Key, k: Key)
    requires cands != []
    requires forall c :: rep(c).confidence == c.confidence
    ensures var prev := BestRep(cands[..|cands| - 1], cluster, rep, fk, k);
      var c := cands[|cands| - 1];
      BestRep(cands, cluster, rep, fk, k) ==
        if cluster(c) == Ok(Some((fk, k))) && (prev.None? || rep(c).confidence > prev.value.confidence) then Some(rep(c))
        else prev
  {
    var n := |cands| - 1;
    var init := cands[..n];
    assert forall j :: 0 <= j < n ==> init[j] == cands[j];
  }

  lemma {:induction false} RepsWithBest(cands: seq<Candidate>, cluster: Clustering, rep: Candidate -> Rep, fk: Key, k: Key)
    requires RepsWith(cands, cluster, rep).Ok?
    requires forall c :: rep(c).confidence == c.confidence
    ensures var b := BucketOf(RepsWith(cands, cluster, rep).value, fk);
      var best := BestRep(cands, cluster, rep, fk, k);
      (best.None? ==> !HasKey(b, k)) && (best.Some? ==> (k, best.value) in b)
  {
    if cands != [] {
      var n := |cands| - 1;
      var init := cands[..n];
      var c := cands[n];
      RepsWithLast(cands, cluster, rep);
      RepsWithBest(init, cluster, rep, fk, k);
      RepsWithDistinct(init, cluster, rep);
      BestRepStep(cands, cluster, rep, fk, k);
      var m0 := RepsWith(init, cluster, rep).value;
      OfferToBest(m0, cluster(c).value, rep(c), fk, k, BestRep(init, cluster, rep, fk, k));
    }
  }

  /**
   * The stored representative of each group is the group's most confident
   * candidate, the first seen among equally confident ones; a group no
   * candidate falls in has no representative.
   */
  lemma {:induction false} RepresentativeIsBest(cands: seq<Candidate>, fk: Key, k: Key)
    requires RepsOf(cands).Ok?
    ensures var m := RepsOf(cands).value;
      match BestIndex(cands, Cluster, fk, k)
      case None => !HasKey(BucketOf(m, fk), k)
      case Some(i) => (k, RepOf(cands[i])) in BucketOf(m, fk)
  {
    RepsWithBest(cands, Cluster, RepOf, fk, k);
  }

  // ------------------------------------------------------------ sorting

  function RepConfidence(p: (Key, Rep)): real { p.1.confidence }

  /** The representatives of one field, most confident first, cut to `limit`. */
  function TopReps(b: Bucket, limit: int): Bucket {
    Prefix(SortDesc(b, RepConfidence), limit)
  }

  lemma {:induction false} InsertDistinct(x: (Key, Rep), t: Bucket)
    requires DistinctKeys(t) && forall i :: 0 <= i < |t| ==> t[i].0 != x.0
    ensures DistinctKeys(Insert(x, t, RepConfidence))
  {
    var p := InsertPos(x, t, RepConfidence);
    var r := Insert(x, t, RepConfidence);
    forall i, j | 0 <= i < j < |r| ensures r[i].0 != r[j].0 {
      if j < p {
        assert r[i] == t[i] && r[j] == t[j];
      } else if j == p {
        assert r[i] == t[i] && r[j] == x;
      } else if i < p {
        assert r[i] == t[i] && r[j] == t[j - 1];
      } else if i == p {
        assert r[i] == x && r[j] == t[j - 1];
      } else {
        assert r[i] == t[i - 1] && r[j] == t[j - 1];
      }
    }
  }

  lemma {:induction false} SortDescDistinct(b: Bucket)
    requires DistinctKeys(b)
    ensures DistinctKeys(SortDesc(b, RepConfidence))
  {
    if b != [] {
      var n := |b| - 1;
      var init := b[..n];
      SortDescDistinct(init);
      SortDescSameElements(init, RepConfidence);
      var t := SortDesc(init, RepConfidence);
      forall i | 0 <= i < |t| ensures t[i].0 != b[n].0 {
        assert t[i] in init;
        var j :| 0 <= j < n && init[j] == t[i];
        assert b[j] == t[i];
      }
      InsertDistinct(b[n], t);
    }
  }

  /**
   * The representatives listed for a field: at most `limit`, one per group
   * (pairwise distinct keys), each one of the field's representatives, in
   * non-increasing confidence order, ties kept in first-insertion order.
   */
  lemma {:induction false} TopRepsShape(b: Bucket, limit: int)
    requires DistinctKeys(b) && 0 <= limit
    ensures var r := TopReps(b, limit);
      |r| <= limit
      && DistinctKeys(r)
      && SortedDesc(r, RepConfidence)
      && (forall p :: p in r ==> p in b)
      && (forall c :: WithKey(SortDesc(b, RepConfidence), RepConfidence, c) == WithKey(b, RepConfidence, c))
  {
    var s := SortDesc(b, RepConfidence);
    SortDescDistinct(b);
    SortDescSorted(b, RepConfidence);
    SortDescSameElements(b, RepConfidence);
    forall c ensures WithKey(s, RepConfidence, c) == WithKey(b, RepConfidence, c) {
      SortDescStable(b, RepConfidence, c);
    }
    var r := TopReps(b, limit);
    forall p | p in r ensures p in b {
      assert p in s;
    }
  }

  /** `_representatives_sorted` restricted to the fields in `done`. */
  function SortedRepsAmong(m: map<Key, Bucket>, limit: int, done: set<Key>): map<Key, Bucket> {
    map fk | fk in m && fk in done :: TopReps(m[fk], limit)
  }

  function SortedReps(m: map<Key, Bucket>, limit: int): map<Key, Bucket> {
    SortedRepsAmong(m, limit, m.Keys)
  }

  /** `_representatives_sorted`: each field's representatives sorted by
      confidence, highest first, and cut to `limit`. */
  method RepresentativesSorted(m: map<Key, Bucket>, limit: int) returns (out: map<Key, Bucket>)
    ensures out == SortedReps(m, limit)
  {
    out := map[];
    var done: set<Key> := {};
    while done != m.Keys
      invariant done <= m.Keys
      invariant out == SortedRepsAmong(m, limit, done)
      decreases |m.Keys - done|
    {
      var fk :| fk in m.Keys - done;
      var reps := m[fk];
      reps := SortDesc(reps, RepConfidence);
      out := out[fk := Prefix(reps, limit)];
      done := done + {fk};
      assert out == SortedRepsAmong(m, limit, done);
    }
  }

  // ------------------------------------------------------------ prompt

  /** `s.replace('"', '\\"')`: every double quote gets a backslash in front. */
  function Escape(s: string): (r: string)
    ensures |s| <= |r|
    ensures '"' !in s ==> r == s
    ensures r == [] || r[0] != '"'
  {
    if s == [] then []
    else (if s[0] == '"' then ['\\', '"'] else [s[0]]) + Escape(s[1..])
  }

  /** Undoes `Escape`: a backslash directly before a double quote is dropped. */
  function Unescape(r: string): string {
    if r == [] then []
    else if |r| >= 2 && r[0] == '\\' && r[1] == '"' then ['"'] + Unescape(r[2..])
    else [r[0]] + Unescape(r[1..])
  }

  /** Escaping loses nothing: removing the inserted backslashes gives `s` back. */
  lemma {:induction false} EscapeRoundTrip(s: string)
    ensures Unescape(Escape(s)) == s
  {
    if s != [] {
      EscapeRoundTrip(s[1..]);
      if s[0] == '"' {
        assert Escape(s) == ['\\', '"'] + Escape(s[1..]);
        assert Escape(s)[2..] == Escape(s[1..]);
      } else {
        assert Escape(s) == [s[0]] + Escape(s[1..]);
        assert Escape(s)[1..] == Escape(s[1..]);
      }
    }
  }

  /** Every double quote in the escaped text is preceded by a backslash, so the
      text can sit between quotes in the prompt. */
  lemma {:induction false} EscapedQuotes(s: string)
    ensures forall i :: 0 <= i < |Escape(s)| && Escape(s)[i] == '"' ==> 0 < i && Escape(s)[i - 1] == '\\'
  {
    if s != [] {
      EscapedQuotes(s[1..]);
      var head := if s[0] == '"' then ['\\', '"'] else [s[0]];
      assert Escape(s) == head + Escape(s[1..]);
      forall i | 0 <= i < |Escape(s)| && Escape(s)[i] == '"'
        ensures 0 < i && Escape(s)[i - 1] == '\\'
      {
        if i >= |head| {
          assert Escape(s)[i] == Escape(s[1..])[i - |head|];
          if i - |head| > 0 {
            assert Escape(s)[i - 1] == Escape(s[1..])[i - |head| - 1];
          }
        }
      }
    }
  }

  function RepLine(rep: Rep): PromptLine {
    Item(rep.value, Escape(rep.units), rep.page, Prefix(Escape(rep.evidence), 160), rep.confidence)
  }

  function RepLines(b: Bucket): seq<PromptLine> {
    if b == [] then [] else RepLines(b[..|b| - 1]) + [RepLine(b[|b| - 1].1)]
  }

  function RepsFor(grouped: map<Key, Bucket>, f: string): Bucket {
    if KStr(f) in grouped then grouped[KStr(f)] else []
  }

  function GapBlock(f: string, reps: Bucket): seq<PromptLine> {
    if reps == [] then [] else [Header(f)] + RepLines(reps) + [Blank]
  }

  function GapBlocks(fields: seq<string>, grouped: map<Key, Bucket>): seq<PromptLine> {
    if fields == [] then []
    else GapBlocks(fields[..|fields| - 1], grouped) + GapBlock(fields[|fields| - 1], RepsFor(grouped, fields[|fields| - 1]))
  }

  /** The grouped-candidates block of the gap prompt; Raised when grouping raises. */
  function GapPrompt(cands: seq<Candidate>, limit: int): Outcome<seq<PromptLine>> {
    match RepsOf(cands)
    case Raised => Raised
    case Ok(m) => Ok(DropTrailingBlank(GapBlocks(KnownFields, SortedReps(m, limit))))
  }

  method AppendRepLines(lines: seq<PromptLine>, reps: Bucket) returns (out: seq<PromptLine>)
    ensures out == lines + RepLines(reps)
  {
    out := lines;
    for k := 0 to |reps|
      invariant out == lines + RepLines(reps[..k])
    {
      assert reps[..k + 1][..k] == reps[..k];
      out := out + [RepLine(reps[k].1)];
    }
    assert reps[..|reps|] == reps;
  }

  lemma {:induction false} GapBlocksStep(fields: seq<string>, j: nat, grouped: map<Key, Bucket>)
    requires j < |fields|
    ensures GapBlocks(fields[..j + 1], grouped) == GapBlocks(fields[..j], grouped) + GapBlock(fields[j], RepsFor(grouped, fields[j]))
  {
    assert fields[..j + 1][..j] == fields[..j];
  }

  method GapFieldBlocks(fields: seq<string>, grouped: map<Key, Bucket>) returns (lines: seq<PromptLine>)
    ensures lines == GapBlocks(fields, grouped)
  {
    lines := [];
    for j := 0 to |fields|
      invariant lines == GapBlocks(fields[..j], grouped)
    {
      var f := fields[j];
      var reps := RepsFor(grouped, f);
      GapBlocksStep(fields, j, grouped);
      lines := AppendGapBlock(lines, f, reps);
    }
    assert fields[..|fields|] == fields;
  }

  /** One field's block of representatives; nothing for a field without any. */
  method AppendGapBlock(lines: seq<PromptLine>, f: string, reps: Bucket) returns (out: seq<PromptLine>)
    ensures out == lines + GapBlock(f, reps)
  {
    out := lines;
    if reps != [] {
      out := AppendRepLines(out + [Header(f)], reps);
      out := out + [Blank];
    }
  }

  /** `_group_candidates_for_prompt` of the gap report. */
  method GroupCandidatesForPrompt(cands: seq<Candidate>, limit: int) returns (r: Outcome<seq<PromptLine>>)
    ensures r == GapPrompt(cands, limit)
  {
    var reps := RepresentativesByField(cands);
    if reps.Raised? {
      return Raised;
    }
    var grouped := RepresentativesSorted(reps.value, limit);
    var lines := GapFieldBlocks(KnownFields, grouped);
    r := Ok(DropTrailingBlank(lines));
  }

  // ------------------------------------------------------------ validation

  const ListKeys: seq<string> := ["missing", "missing_low_conf", "ambiguous", "conflicts", "questions"]

  /** `isinstance(v, int)`, which holds of booleans too. */
  predicate IsIntLike(v: Value) { v.Int? || v.Bool? }

  predicate ValidAmbiguous(a: Value) {
    a.Obj? && "field" in a.fields && "options" in a.fields
    && a.fields["options"].Arr? && a.fields["options"].items != []
  }

  predicate ValidConflict(c: Value) { c.Obj? && "field" in c.fields && "a" in c.fields && "b" in c.fields }

  predicate ValidQuestion(q: Value) { q.Obj? && "field" in q.fields && "question" in q.fields }

  predicate HasGapKeys(m: map<string, Value>) {
    "schema_version" in m && "policy" in m && "modality" in m && "summary" in m && "missing" in m
    && "missing_low_conf" in m && "ambiguous" in m && "conflicts" in m && "questions" in m && "provenance" in m
  }

  predicate AmbiguousList(v: Value) { v.Arr? && forall i :: 0 <= i < |v.items| ==> ValidAmbiguous(v.items[i]) }

  predicate ConflictList(v: Value) { v.Arr? && forall i :: 0 <= i < |v.items| ==> ValidConflict(v.items[i]) }

  predicate QuestionList(v: Value) { v.Arr? && forall i :: 0 <= i < |v.items| ==> ValidQuestion(v.items[i]) }

  /** `_validate_llm_gap`. */
  predicate ValidLlmGap(obj: Value) {
    obj.Obj? && HasGapKeys(obj.fields)
    && var m := obj.fields;
    IsIntLike(m["schema_version"]) && m["policy"].Str? && m["modality"].Arr? && m["summary"].Obj?
    && m["missing"].Arr? && m["missing_low_conf"].Arr?
    && AmbiguousList(m["ambiguous"]) && ConflictList(m["conflicts"]) && QuestionList(m["questions"])
  }

  /** The list under `k` has its length recorded under the same name in the summary. */
  predicate CountMatches(m: map<string, Value>, s: map<string, Value>, k: string) {
    k in m && m[k].Arr? && Get(s, k, Null) == Int(|m[k].items|)
  }

  /** The summary counts equal the lengths of the four lists. */
  predicate SummaryMatches(report: Value) {
    report.Obj? && "summary" in report.fields && report.fields["summary"].Obj?
    && var m := report.fields;
    var s := m["summary"].fields;
    CountMatches(m, s, "missing") && CountMatches(m, s, "ambiguous")
    && CountMatches(m, s, "conflicts") && CountMatches(m, s, "questions")
  }

  /** The provenance records which inputs existed and when the report was made. */
  predicate ProvenanceFrom(report: Value, extractedExists: bool, candidatesExists: bool, now: string) {
    report.Obj? && "provenance" in report.fields && report.fields["provenance"].Obj?
    && var p := report.fields["provenance"].fields;
    Get(p, "from_extracted", Null) == Bool(extractedExists)
    && Get(p, "from_candidates", Null) == Bool(candidatesExists)
    && Get(p, "generated_at", Null) == Str(now)
  }

  // ------------------------------------------------------------ the report

  function Stamp(base: map<string, Value>, extractedExists: bool, candidatesExists: bool, now: string): map<string, Value> {
    base + map["from_extracted" := Bool(extractedExists), "from_candidates" := Bool(candidatesExists), "generated_at" := Str(now)]
  }

  /** `_write_stub_gap_report`: every count zero, every list empty. */
  function StubReport(modalities: Value, extractedExists: bool, candidatesExists: bool, now: string): Value {
    Obj(map[
      "schema_version" := Int(1),
      "policy" := Str("llm_gap_v1_stub"),
      "modality" := Or(modalities, Arr([Str("CT")])),
      "summary" := Obj(map["missing" := Int(0), "ambiguous" := Int(0), "conflicts" := Int(0), "questions" := Int(0)]),
      "missing" := Arr([]),
      "missing_low_conf" := Arr([]),
      "ambiguous" := Arr([]),
      "conflicts" := Arr([]),
      "questions" := Arr([]),
      "provenance" := Obj(Stamp(map[], extractedExists, candidatesExists, now))
    ])
  }

  /** `", ".join(modalities)` succeeds: a list of strings, a string, or a dict. */
  predicate Joinable(v: Value) {
    match v
    case Arr(xs) => forall i :: 0 <= i < |xs| ==> xs[i].Str?
    case Str(_) => true
    case Obj(_) => true
    case _ => false
  }

  /** A validated reply with its summary counts recomputed and its provenance
      completed; a truthy provenance that is not a dict raises at `update`. */
  function Normalize(resp: Value, extractedExists: bool, candidatesExists: bool, now: string): Outcome<Value>
    requires ValidLlmGap(resp)
  {
    var m := resp.fields;
    var sm := m["summary"].fields + map[
      "missing" := Int(|m["missing"].items|), "ambiguous" := Int(|m["ambiguous"].items|),
      "conflicts" := Int(|m["conflicts"].items|), "questions" := Int(|m["questions"].items|)];
    var prov := Or(m["provenance"], Obj(map[]));
    if !prov.Obj? then Raised
    else Ok(Obj(m["summary" := Obj(sm)]["provenance" := Obj(Stamp(prov.fields, extractedExists, candidatesExists, now))]))
  }

  /** The report from the LLM's reply: the normalised reply when it validates,
      the stub otherwise. */
  function FromReply(reply: LlmReply, stub: Value, extractedExists: bool, candidatesExists: bool, now: string): Value {
    match reply
    case Failure(_) => stub
    case Reply(resp) =>
      if !ValidLlmGap(resp) then stub
      else match Normalize(resp, extractedExists, candidatesExists, now)
        case Ok(r) => r
        case Raised => stub
  }

  /** `build_gap_report_llm_async` as written: the prompt is assembled outside the
      `try`, so a candidate group that cannot be hashed, or modalities that cannot
      be joined, raise instead of producing the stub. */
  function GapReportAsWritten(winners: Value, cands: seq<Candidate>, flagModalities: Value,
                              extractedExists: bool, candidatesExists: bool, reply: LlmReply, now: string): Outcome<Value> {
    var mods := Or(flagModalities, Arr([Str("CT")]));
    var stub := StubReport(mods, extractedExists, candidatesExists, now);
    if !Truthy(winners) && cands == [] then Ok(stub)
    else if GapPrompt(cands, 5).Raised? || !Joinable(mods) then Raised
    else Ok(FromReply(reply, stub, extractedExists, candidatesExists, now))
  }

  /** The gap report with the documented contract kept: every failure, prompt
      assembly included, yields the stub. */
  function GapReport(winners: Value, cands: seq<Candidate>, flagModalities: Value,
                     extractedExists: bool, candidatesExists: bool, reply: LlmReply, now: string): Value {
    var mods := Or(flagModalities, Arr([Str("CT")]));
    var stub := StubReport(mods, extractedExists, candidatesExists, now);
    if !Truthy(winners) && cands == [] then stub
    else if GapPrompt(cands, 5).Raised? || !Joinable(mods) then stub
    else FromReply(reply, stub, extractedExists, candidatesExists, now)
  }

  /** The stub's summary counts match its (empty) lists. */
  lemma {:induction false} StubSummary(modalities: Value, extractedExists: bool, candidatesExists: bool, now: string)
    ensures SummaryMatches(StubReport(modalities, extractedExists, candidatesExists, now))
  {
  }

  /** The stub records which inputs existed and when it was made. */
  lemma {:induction false} StubProvenance(modalities: Value, extractedExists: bool, candidatesExists: bool, now: string)
    ensures ProvenanceFrom(StubReport(modalities, extractedExists, candidatesExists, now), extractedExists, candidatesExists, now)
  {
  }

  /** The stub passes validation exactly when the modalities it records form a list. */
  lemma {:induction false} StubValid(modalities: Value, extractedExists: bool, candidatesExists: bool, now: string)
    ensures ValidLlmGap(StubReport(modalities, extractedExists, candidatesExists, now)) <==> Or(modalities, Arr([Str("CT")])).Arr?
  {
  }

  /** A normalised reply still validates, its summary counts match its lists,
      its provenance records the inputs, and every other key is unchanged. */
  lemma {:induction false} NormalizeValid(resp: Value, extractedExists: bool, candidatesExists: bool, now: string)
    requires ValidLlmGap(resp) && Normalize(resp, extractedExists, candidatesExists, now).Ok?
    ensures var r := Normalize(resp, extractedExists, candidatesExists, now).value;
      ValidLlmGap(r) && SummaryMatches(r) && ProvenanceFrom(r, extractedExists, candidatesExists, now)
      && forall k :: k in resp.fields && k != "summary" && k != "provenance" ==> k in r.fields && r.fields[k] == resp.fields[k]
  {
    NormalizeKeepsOthers(resp, extractedExists, candidatesExists, now);
    NormalizeCounts(resp, extractedExists, candidatesExists, now);
    NormalizeStillValid(resp, extractedExists, candidatesExists, now);
  }

  lemma {:induction false} NormalizeKeepsOthers(resp: Value, extractedExists: bool, candidatesExists: bool, now: string)
    requires ValidLlmGap(resp) && Normalize(resp, extractedExists, candidatesExists, now).Ok?
    ensures var r := Normalize(resp, extractedExists, candidatesExists, now).value;
      r.Obj? && ProvenanceFrom(r, extractedExists, candidatesExists, now)
      && forall k :: k in resp.fields && k != "summary" && k != "provenance" ==> k in r.fields && r.fields[k] == resp.fields[k]
  {
  }

  lemma {:induction false} NormalizeCounts(resp: Value, extractedExists: bool, candidatesExists: bool, now: string)
    requires ValidLlmGap(resp) && Normalize(resp, extractedExists, candidatesExists, now).Ok?
    ensures SummaryMatches(Normalize(resp, extractedExists, candidatesExists, now).value)
  {
    var m := resp.fields;
    var r := Normalize(resp, extractedExists, candidatesExists, now).value;
    NormalizeKeepsOthers(resp, extractedExists, candidatesExists, now);
    assert r.fields["missing"] == m["missing"] && r.fields["ambiguous"] == m["ambiguous"];
    assert r.fields["conflicts"] == m["conflicts"] && r.fields["questions"] == m["questions"];
  }

  lemma {:induction false} NormalizeStillValid(resp: Value, extractedExists: bool, candidatesExists: bool, now: string)
    requires ValidLlmGap(resp) && Normalize(resp, extractedExists, candidatesExists, now).Ok?
    ensures ValidLlmGap(Normalize(resp, extractedExists, candidatesExists, now).value)
  {
    var m := resp.fields;
    var r := Normalize(resp, extractedExists, candidatesExists, now).value;
    NormalizeKeepsOthers(resp, extractedExists, candidatesExists, now);
    assert r.fields["missing_low_conf"] == m["missing_low_conf"] && r.fields["missing"] == m["missing"];
    assert r.fields["ambiguous"] == m["ambiguous"];
    assert r.fields["conflicts"] == m["conflicts"] && r.fields["questions"] == m["questions"];
  }

  /**
   * Whatever the inputs, the written report's summary counts equal the lengths
   * of its lists and its provenance records the inputs; it passes
   * `_validate_llm_gap` whenever the modalities are a list; without winners and candidates, or when the call fails or its
   * reply does not validate, it is the stub.
   */
  lemma {:induction false} GapReportContract(winners: Value, cands: seq<Candidate>, flagModalities: Value,
                                             extractedExists: bool, candidatesExists: bool, reply: LlmReply, now: string)
    ensures var r := GapReport(winners, cands, flagModalities, extractedExists, candidatesExists, reply, now);
      SummaryMatches(r) && ProvenanceFrom(r, extractedExists, candidatesExists, now)
      && (Or(flagModalities, Arr([Str("CT")])).Arr? ==> ValidLlmGap(r))
    ensures var stub := StubReport(Or(flagModalities, Arr([Str("CT")])), extractedExists, candidatesExists, now);
      (!Truthy(winners) && cands == []) || reply.Failure? || (reply.Reply? && !ValidLlmGap(reply.json)) ==>
        GapReport(winners, cands, flagModalities, extractedExists, candidatesExists, reply, now) == stub
  {
    var mods := Or(flagModalities, Arr([Str("CT")]));
    var stub := StubReport(mods, extractedExists, candidatesExists, now);
    StubSummary(mods, extractedExists, candidatesExists, now);
    StubProvenance(mods, extractedExists, candidatesExists, now);
    StubValid(mods, extractedExists, candidatesExists, now);
    FromReplyValid(reply, stub, extractedExists, candidatesExists, now);
  }

  /** The report made from a reply keeps the guarantees the stub has. */
  lemma {:induction false} FromReplyValid(reply: LlmReply, stub: Value, extractedExists: bool, candidatesExists: bool, now: string)
    requires SummaryMatches(stub) && ProvenanceFrom(stub, extractedExists, candidatesExists, now)
    ensures var r := FromReply(reply, stub, extractedExists, candidatesExists, now);
      SummaryMatches(r) && ProvenanceFrom(r, extractedExists, candidatesExists, now)
      && (ValidLlmGap(stub) ==> ValidLlmGap(r))
      && (reply.Failure? || !ValidLlmGap(reply.json) ==> r == stub)
  {
    if reply.Reply? && ValidLlmGap(reply.json) && Normalize(reply.json, extractedExists, candidatesExists, now).Ok? {
      NormalizeValid(reply.json, extractedExists, candidatesExists, now);
    }
  }

  /** The corrected report agrees with the code wherever the code does not raise. */
  lemma {:induction false} GapReportAgrees(winners: Value, cands: seq<Candidate>, flagModalities: Value,
                                           extractedExists: bool, candidatesExists: bool, reply: LlmReply, now: string)
    ensures GapReportAsWritten(winners, cands, flagModalities, extractedExists, candidatesExists, reply, now).Ok? ==>
      GapReportAsWritten(winners, cands, flagModalities, extractedExists, candidatesExists, reply, now).value
      == GapReport(winners, cands, flagModalities, extractedExists, candidatesExists, reply, now)
  {
  }

  /** A candidate for a field outside the known eight whose value is a list (a
      repetition time "TR" read as [30, 60]): grouping it raises, so the code as
      written fails instead of writing the stub. */
  lemma {:induction false} UnhashableGroupRaises(reply: LlmReply, now: string)
    ensures var c := Candidate(Str("TR"), 4, "TR 30/60", Arr([Int(30), Int(60)]), "", "TR 30/60 ms", 0.6, "");
      GapReportAsWritten(Null, [c], Null, true, true, reply, now).Raised?
      && GapReport(Null, [c], Null, true, true, reply, now) == StubReport(Arr([Str("CT")]), true, true, now)
  {
    var c := Candidate(Str("TR"), 4, "TR 30/60", Arr([Int(30), Int(60)]), "", "TR 30/60 ms", 0.6, "");
    assert GapPrompt([c], 5).Raised? by {
      assert Cluster(c).Raised? by {
        assert KindOf(c.field) == OtherField;
        assert NormalizedValue(OtherField, c.value, c.units) == c.value;
      }
      assert [c][..0] == [];
    }
  }

  /** The `try` body after the call: validate the reply, recompute the summary
      counts in place, complete the provenance; any failure gives the stub. */
  method ReportFromReply(reply: LlmReply, stub: Value, extractedExists: bool, candidatesExists: bool, now: string)
    returns (report: Value)
    ensures report == FromReply(reply, stub, extractedExists, candidatesExists, now)
  {
    if reply.Failure? || !ValidLlmGap(reply.json) {
      return stub;
    }
    var m := reply.json.fields;
    var resp := m;
    var sm := resp["summary"].fields;
    sm := sm["missing" := Int(|resp["missing"].items|)];
    sm := sm["ambiguous" := Int(|resp["ambiguous"].items|)];
    sm := sm["conflicts" := Int(|resp["conflicts"].items|)];
    sm := sm["questions" := Int(|resp["questions"].items|)];
    assert sm == m["summary"].fields + map[
      "missing" := Int(|m["missing"].items|), "ambiguous" := Int(|m["ambiguous"].items|),
      "conflicts" := Int(|m["conflicts"].items|), "questions" := Int(|m["questions"].items|)];
    resp := resp["summary" := Obj(sm)];
    var prov := Or(resp["provenance"], Obj(map[]));
    if !prov.Obj? {
      return stub;
    }
    var p := prov.fields;
    p := p["from_extracted" := Bool(extractedExists)];
    p := p["from_candidates" := Bool(candidatesExists)];
    p := p["generated_at" := Str(now)];
    assert p == Stamp(prov.fields, extractedExists, candidatesExists, now);
    resp := resp["provenance" := Obj(p)];
    report := Obj(resp);
  }

  /**
   * `_read_json(path).get(key)`: a missing, unreadable or falsy document reads as an
   * empty dict, so the key is absent; a document that is truthy but not a dict has
   * no `get`, which raises.
   */
  function StoredGet(doc: Value, key: string): (r: Outcome<Value>)
    ensures !Truthy(doc) ==> r == Ok(Null)
    ensures Truthy(doc) && !doc.Obj? ==> r.Raised?
    ensures doc.Obj? ==> r == Ok(Get(doc.fields, key, Null))
  {
    var d := Or(doc, Obj(map[]));
    if d.Obj? then Ok(Get(d.fields, key, Null)) else Raised
  }

  /**
   * `build_gap_report_llm_async` with the prompt assembled inside the `try`: reads the
   * winners and the flagged modalities from their stored documents (`Null` for a
   * missing or unreadable file), builds the prompt, asks the LLM, validates, and
   * recomputes the summary. A stored document that is not a dict raises before the
   * `try`.
   */
  method BuildGapReportLlm(extractedDoc: Value, cands: seq<Candidate>, flagsDoc: Value,
                           extractedExists: bool, candidatesExists: bool, reply: LlmReply, now: string)
    returns (r: Outcome<Value>)
    ensures StoredGet(extractedDoc, "fields").Raised? || StoredGet(flagsDoc, "modalities").Raised? ==> r.Raised?
    ensures StoredGet(extractedDoc, "fields").Ok? && StoredGet(flagsDoc, "modalities").Ok? ==>
      var winners := Or(StoredGet(extractedDoc, "fields").value, Obj(map[]));
      var flagModalities := StoredGet(flagsDoc, "modalities").value;
      r == Ok(GapReport(winners, cands, flagModalities, extractedExists, candidatesExists, reply, now))
      && SummaryMatches(r.value) && ProvenanceFrom(r.value, extractedExists, candidatesExists, now)
      && (Or(flagModalities, Arr([Str("CT")])).Arr? ==> ValidLlmGap(r.value))
      && (GapReportAsWritten(winners, cands, flagModalities, extractedExists, candidatesExists, reply, now).Ok? ==>
            r == GapReportAsWritten(winners, cands, flagModalities, extractedExists, candidatesExists, reply, now))
  {
    var fields := StoredGet(extractedDoc, "fields");
    var flagModalities := StoredGet(flagsDoc, "modalities");
    if fields.Raised? || flagModalities.Raised? {
      return Raised;
    }
    var winners := Or(fields.value, Obj(map[]));
    GapReportContract(winners, cands, flagModalities.value, extractedExists, candidatesExists, reply, now);
    GapReportAgrees(winners, cands, flagModalities.value, extractedExists, candidatesExists, reply, now);
    var modalities := Or(flagModalities.value, Arr([Str("CT")]));
    var stub := StubReport(modalities, extractedExists, candidatesExists, now);
    if !Truthy(winners) && cands == [] {
      return Ok(stub);
    }
    var grouped := GroupCandidatesForPrompt(cands, 5);
    if grouped.Raised? || !Joinable(modalities) {
      return Ok(stub);
    }
    var report := ReportFromReply(reply, stub, extractedExists, candidatesExists, now);
    r := Ok(report);
  }
}
