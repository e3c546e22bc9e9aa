/** The position cache with the conversions of the code, over the reals, and runs that fail.

    Places are points in earth-centred coordinates, and tangent planes those of FloatPlane. LLA is
    taken for earth-centred coordinates, and a UTM position for a point shifted by its zone; all
    lengths are in metres. */
module PlaneWorld {
  import opened Bytes
  import opened LinearAlgebra3
  import opened FloatPlane
  import opened StateCache

  // ---------- The conversions ----------

  predicate InNed(r: Rep) {
    r == NedI || r == NedF
  }

  /** NED to ENU, or back: the same exchange of axes. */
  function Swapped(r: Rep, v: Vec): Vec {
    if InNed(r) then NedOfEnu(v) else v
  }

  function Shift(zone: uint8): Vec {
    Vec(zone as real, 0.0, 0.0)
  }

  /** The place of a value relative to `f`. */
  function PlaceOf(r: Rep, f: Origin<Plane>, v: Vec): Vec {
    var e := Swapped(r, v);
    match f
    case Nowhere => e
    case Ltp(d) => EcefOfEnuPoint(d, e)
    case Utm(o, zone) => VecAdd(VecAdd(e, o.ecef), Shift(zone))
    case Zone(zone) => VecAdd(e, Shift(zone))
  }

  /** From there to local coordinates. */
  function IntoLocal(to: Rep, f: Origin<Plane>, p: Vec): Vec {
    match f
    case Ltp(d) => Swapped(to, EnuOfEcefPoint(d, p))
    case Utm(o, zone) => Swapped(to, VecSub(p, o.ecef))
    case _ => Swapped(to, p)
  }

  /** Centimetres taken for metres with eight fractional bits. */
  const WRONG_UNIT := 100.0 / 256.0

  function Converted(from: Rep, to: Rep, f: Origin<Plane>, v: Vec): Vec {
    if Local(from) && Local(to) then Swapped(to, Swapped(from, v))
    else if Local(to) then
      var x := IntoLocal(to, f, v);
      if from == LlaI && (to == NedI || to == EnuI) then VecScale(x, WRONG_UNIT) else x
    else if Local(from) || (from == UtmF && to != UtmF) then PlaceOf(from, f, v)
    else if to == UtmF && from != UtmF && f.Zone? then VecSub(v, Shift(f.zone))
    else v
  }

  /** The matrix is orthogonal. */
  predicate Proper(d: Plane) {
    MatMul(Transpose(d.m), d.m) == IDENTITY
  }

  function CodeWorld(): World<Vec, Plane, Vec> {
    World(
      (from, to, f, v) => Converted(from, to, f, v),
      (r, f, v) => PlaceOf(r, f, v),
      d => Grown(d),
      d => Proper(d))
  }

  // ---------- They keep the place where the cache asks them to ----------

  /** Through a proper plane the conversions go there and back. */
  lemma ThereAndBack(d: Plane, p: Vec)
    requires Proper(d)
    ensures EcefOfEnuPoint(d, EnuOfEcefPoint(d, p)) == p
  {
    var v := VecSub(p, d.ecef);
    MatVecMul(Transpose(d.m), d.m, v);
    IdentityVec(v);
    hide MatVec, MatMul, Transpose;
    assert VecAdd(v, d.ecef) == p;
  }

  lemma SwappedTwice(r: Rep, v: Vec)
    ensures Swapped(r, Swapped(r, v)) == v
  {
  }

  lemma IntoLocalLands(to: Rep, d: Plane, p: Vec)
    requires Proper(d)
    ensures PlaceOf(to, Ltp(d), IntoLocal(to, Ltp(d), p)) == p
  {
    ThereAndBack(d, p);
    SwappedTwice(to, EnuOfEcefPoint(d, p));
    hide EcefOfEnuPoint, EnuOfEcefPoint, Swapped, Proper;
  }

  lemma ConversionKeepsPlace(from: Rep, to: Rep, handed: Origin<Plane>, fr: Frames<Plane>, v: Vec)
    requires (fr.nedInitializedI ==> Proper(fr.nedOrigin)) && Sound(from, to, handed, fr)
    ensures PlaceOf(to, RelativeTo(fr, to), Converted(from, to, handed, v)) == PlaceOf(from, RelativeTo(fr, from), v)
  {
    if Local(from) && Local(to) {
      SwappedTwice(to, Swapped(from, v));
      hide Swapped, EcefOfEnuPoint;
    } else if Local(to) {
      if handed.Ltp? {
        IntoLocalLands(to, handed.ltp, v);
        hide EcefOfEnuPoint, EnuOfEcefPoint, Proper;
      } else {
        hide EcefOfEnuPoint, EnuOfEcefPoint, Proper;
      }
    } else {
      hide EcefOfEnuPoint, EnuOfEcefPoint, Proper;
    }
  }

  /** What the cache's results ask of conversions holds of those of the code: with planes whose
      matrix is orthogonal, the derived float plane and the unset one not being among them. */
  lemma CodeWorldIsFaithful()
    ensures Faithful(CodeWorld())
  {
    forall from, to, handed: Origin<Plane>, fr: Frames<Plane>, v
      | OnProperPlane(CodeWorld(), fr) && Sound(from, to, handed, fr)
      ensures var w := CodeWorld();
        w.point(to, RelativeTo(fr, to), w.convert(from, to, handed, v)) == w.point(from, RelativeTo(fr, from), v)
    {
      ConversionKeepsPlace(from, to, handed, fr, v);
      hide Sound, RelativeTo, PlaceOf, Converted, Proper;
    }
  }

  lemma FirstOfGram(a: real, b: real, c: real, m: Mat)
    requires m.m00 == a && m.m10 == b && m.m20 == c
    ensures MatMul(Transpose(m), m).m00 == a * a + b * b + c * c
  {
  }

  lemma SquaresGrow(a: real, b: real, c: real)
    ensures (64.0 * a) * (64.0 * a) + (64.0 * b) * (64.0 * b) + (64.0 * c) * (64.0 * c)
         == 4096.0 * (a * a + b * b + c * c)
  {
  }

  /** The derived plane is never proper, nor the plane it is derived from. */
  lemma GrownIsImproper(d: Plane)
    requires Proper(d)
    ensures !Proper(Grown(d)) && Grown(d) != d
  {
    var a, b, c := d.m.m00, d.m.m10, d.m.m20;
    FirstOfGram(a, b, c, d.m);
    FirstOfGram(64.0 * a, 64.0 * b, 64.0 * c, Grown(d).m);
    SquaresGrow(a, b, c);
    hide MatMul, Transpose, Grown;
  }

  lemma WorldFacts(from: Rep, to: Rep, f: Origin<Plane>, v: Vec)
    ensures var w := CodeWorld();
      w.convert(from, to, f, v) == Converted(from, to, f, v) && w.point(to, f, v) == PlaceOf(to, f, v)
  {
  }

  // ---------- Runs that fail ----------

  /** Everything unset and unmarked, as zeroed storage is. */
  function Unset(): Plane {
    Plane(ZERO, Mat(0.0, 0.0, 0.0, 0.0, 0.0, 0.0, 0.0, 0.0, 0.0))
  }

  function Initial(): Cache<Vec, Plane> {
    Cache({}, ZERO, ZERO, ZERO, ZERO, ZERO, ZERO, ZERO, ZERO, ZERO,
          Frames(false, false, false, Unset(), Unset(), Unset(), 0, 0))
  }

  lemma InitialIsReliable()
    ensures Reliable(CodeWorld(), Initial().frames) && Valid(Initial())
    ensures forall p :: Denotes(CodeWorld(), Initial(), p)
  {
    CodeWorldIsFaithful();
    hide Faithful;
  }

  /** From there, in every run in which each getter has a source and each tangent plane set is
      proper, every marked representation is of the last position set. */
  lemma EveryRunOfCodeDenotes(ops: seq<Op<Vec, Plane>>, p: Vec)
    requires AllAllowed(CodeWorld(), Initial(), ops)
    ensures var w := CodeWorld(); Denotes(w, Run(w, Initial(), ops), MeantAfter(w, Initial(), ops, p))
  {
    InitialIsReliable();
    hide *;
    EveryRunDenotes(CodeWorld(), Initial(), ops, p);
  }

  lemma GetIsCalc<V, O, P>(w: World<V, O, P>, c: Cache<V, O>, t: Rep)
    ensures Step(w, c, Get(t)) == Calc(w, c, t)
  {
  }

  /** The origin is set, then a position as `r`. */
  function WithPlane(d: Plane, r: Rep, v: Vec): Cache<Vec, Plane> {
    Step(CodeWorld(), Step(CodeWorld(), Initial(), Move(d)), SetTo(r, v, 0))
  }

  lemma WithPlaneFacts(d: Plane, r: Rep, v: Vec)
    requires Proper(d) && (r == EcefF || r == NedF)
    ensures var c := WithPlane(d, r, v);
      && Valid(c) && Reliable(CodeWorld(), c.frames) && c.status == {r} && Value(c, r) == v
      && Denotes(CodeWorld(), c, if r == EcefF then v else EcefOfEnuPoint(d, NedOfEnu(v)))
      && c.frames.nedInitializedI && c.frames.nedOrigin == d && c.frames.nedOriginF == Grown(d) && Grown(d) != d
  {
    CodeWorldIsFaithful();
    GrownIsImproper(d);
    hide Faithful, EcefOfEnuPoint, NedOfEnu, Grown;
  }

  lemma IntoFloatPlane<V, O, P>(w: World<V, O, P>, c: Cache<V, O>, t: Rep)
    requires Valid(c) && c.status == {EcefF} && c.frames.nedInitializedI && (t == NedF || t == NedI)
    requires c.frames.nedOriginF != c.frames.nedOrigin
    ensures Skewed(c, t) && !Sourced(c, t)
    ensures SkewedFrom(c, t) == EcefF && AsFloat(t) == NedF && SkewedValue(w, c, t) == c.ecefF
    ensures var x := w.convert(EcefF, NedF, Ltp(c.frames.nedOriginF), c.ecefF);
      Value(Calc(w, c, t), t) == if t == NedF then x else w.convert(NedF, NedI, Nowhere, x)
  {
  }

  lemma SwappedScaled(e: Vec, s: real)
    ensures NedOfEnu(VecScale(NedOfEnu(e), s)) == VecScale(e, s)
  {
  }

  /** A position set as float ECEF comes out as NED, float or integer, 64 times as far from the
      origin: right only at the origin itself. */
  lemma FloatPlaneInput(d: Plane, p: Vec, t: Rep)
    requires Proper(d) && (t == NedF || t == NedI)
    ensures var w, c := CodeWorld(), WithPlane(d, EcefF, p);
      && Denotes(w, c, p) && !Sourced(c, t)
      && Value(Step(w, c, Get(t)), t) == VecScale(NedOfEnu(EnuOfEcefPoint(d, p)), 64.0)
      && (Denotes(w, Step(w, c, Get(t)), p) <==> p == d.ecef)
  {
    var w, c, e := CodeWorld(), WithPlane(d, EcefF, p), EnuOfEcefPoint(d, p);
    var x := VecScale(NedOfEnu(e), 64.0);
    WithPlaneFacts(d, EcefF, p);
    assert Value(c, EcefF) == c.ecefF;
    IntoFloatPlane(w, c, t);
    WorldFacts(EcefF, NedF, Ltp(Grown(d)), p);
    WorldFacts(NedF, NedI, Nowhere, x);
    WorldFacts(NedF, NedF, Ltp(d), x);
    SwappedTwice(NedF, x);
    EnuGrows(d, p);
    assert Converted(EcefF, NedF, Ltp(Grown(d)), p) == x && Converted(NedF, NedI, Nowhere, x) == x;
    assert PlaceOf(NedF, Ltp(d), x) == EcefOfEnuPoint(d, NedOfEnu(x));
    SwappedScaled(e, 64.0);
    ThereAndBack(d, p);
    EcefOfScaled(d, e, 64.0);
    SixtyFourfold(EcefOfEnuPoint(d, VecScale(e, 64.0)), p, d.ecef);
    hide *;
    GetIsCalc(w, c, t);
    SkewedReads(w, c, t, p);
  }

  lemma OutOfFloatPlane<V, O, P>(w: World<V, O, P>, c: Cache<V, O>)
    requires Valid(c) && c.status == {NedF} && c.frames.nedInitializedI
    requires c.frames.nedOriginF != c.frames.nedOrigin
    ensures Foreign(c, EcefF) && !Sourced(c, EcefF)
    ensures ForeignFrom(c, EcefF) == NedF && ForeignTo(c, EcefF) == EcefF
    ensures ForeignPlane(c, EcefF) == c.frames.nedOriginF && ForeignValue(w, c, EcefF) == c.nedF
    ensures Value(Calc(w, c, EcefF), EcefF) == w.convert(NedF, EcefF, Ltp(c.frames.nedOriginF), c.nedF)
  {
  }

  /** And one set as float NED comes out as float ECEF 64 times as far. */
  lemma FloatPlaneBackInput(d: Plane, v: Vec)
    requires Proper(d)
    ensures var w, c, p := CodeWorld(), WithPlane(d, NedF, v), EcefOfEnuPoint(d, NedOfEnu(v));
      && Denotes(w, c, p) && !Sourced(c, EcefF)
      && VecSub(Value(Step(w, c, Get(EcefF)), EcefF), d.ecef) == VecScale(VecSub(p, d.ecef), 64.0)
      && (Denotes(w, Step(w, c, Get(EcefF)), p) <==> p == d.ecef)
  {
    var w, c, p := CodeWorld(), WithPlane(d, NedF, v), EcefOfEnuPoint(d, NedOfEnu(v));
    var x := EcefOfEnuPoint(Grown(d), NedOfEnu(v));
    WithPlaneFacts(d, NedF, v);
    assert Value(c, NedF) == c.nedF;
    OutOfFloatPlane(w, c);
    WorldFacts(NedF, EcefF, Ltp(Grown(d)), v);
    WorldFacts(NedF, EcefF, Nowhere, x);
    assert Converted(NedF, EcefF, Ltp(Grown(d)), v) == x && PlaceOf(EcefF, Nowhere, x) == x;
    EcefGrows(d, NedOfEnu(v));
    SixtyFourfold(x, p, d.ecef);
    hide *;
    GetIsCalc(w, c, EcefF);
    ForeignReads(w, c, EcefF, p);
  }

  lemma SixtyFourfold(x: Vec, p: Vec, o: Vec)
    requires VecSub(x, o) == VecScale(VecSub(p, o), 64.0)
    ensures x == p <==> p == o
  {
  }

  /** A UTM origin is set, then a position as `r`. */
  function WithUtm(o: Plane, zone: uint8, r: Rep, v: Vec): Cache<Vec, Plane> {
    Step(CodeWorld(), Step(CodeWorld(), Initial(), MoveUtm(o, zone)), SetTo(r, v, zone))
  }

  lemma WithUtmFacts(o: Plane, zone: uint8, r: Rep, v: Vec)
    requires r == LlaF || r == UtmF
    ensures var c := WithUtm(o, zone, r, v);
      && Valid(c) && Reliable(CodeWorld(), c.frames) && c.status == {r} && Value(c, r) == v
      && Denotes(CodeWorld(), c, if r == UtmF then VecAdd(v, Shift(zone)) else v)
      && !c.frames.nedInitializedI && c.frames.utmInitializedF && c.frames.utmOrigin == o
      && c.frames.utmOriginZone == zone && c.frames.zone == (if r == UtmF then zone else 0)
      && c.frames.nedOriginF == Unset()
      && (r == UtmF ==> SameZone(c) && c.utmF == v) && (r == LlaF ==> c.llaF == v)
  {
    CodeWorldIsFaithful();
    hide Faithful, EcefOfEnuPoint, NedOfEnu;
  }

  lemma ZoneGetter<V, O, P>(w: World<V, O, P>, c: Cache<V, O>)
    requires Valid(c) && c.status == {LlaF} && !c.frames.nedInitializedI && c.frames.utmInitializedF
    ensures Sourced(c, NedF) <==> SameZone(c)
    ensures !SameZone(c) ==> OtherZone(c, NedF)
    ensures ZonedValue(w, c) == w.convert(LlaF, UtmF, Zone(c.frames.zone), c.llaF)
  {
  }

  lemma ZoneConversions(o: Plane, zone: uint8, p: Vec)
    ensures var w := CodeWorld(); var frame := Utm(o, zone);
      var x := w.convert(UtmF, NedF, frame, w.convert(LlaF, UtmF, Zone(0), p));
      w.point(NedF, frame, x) == VecAdd(p, Shift(zone))
  {
  }

  /** If it was set in LLA, and none before in UTM, the zone of UTM positions is still 0: the local
      coordinates are right only if the origin is in that zone. */
  lemma ZoneInput(o: Plane, zone: uint8, p: Vec)
    ensures var w, c := CodeWorld(), WithUtm(o, zone, LlaF, p);
      Denotes(w, c, p) && (Denotes(w, Step(w, c, Get(NedF)), p) <==> zone == 0)
  {
    var w, c := CodeWorld(), WithUtm(o, zone, LlaF, p);
    WithUtmFacts(o, zone, LlaF, p);
    ZoneGetter(w, c);
    ZoneConversions(o, zone, p);
    assert VecAdd(p, Shift(zone)) == p <==> zone == 0;
    assert SameZone(c) <==> zone == 0;
    assert AsFloat(NedF) == NedF;
    hide *;
    GetIsCalc(w, c, NedF);
    if zone == 0 {
      SourcedGetterDenotes(w, c, NedF, p);
    } else {
      OtherZoneReads(w, c, NedF, p);
    }
  }

  lemma UtmGetter<V, O, P>(w: World<V, O, P>, c: Cache<V, O>)
    requires Valid(c) && c.status == {UtmF} && !c.frames.nedInitializedI && c.frames.utmInitializedF && SameZone(c)
    ensures Sourced(c, LlaF) && Sourced(c, NedF)
    ensures var c' := Calc(w, c, NedF);
      && Valid(c') && c'.frames == c.frames && Foreign(c', LlaF)
      && ForeignFrom(c', LlaF) == NedF && ForeignTo(c', LlaF) == EcefF
      && ForeignPlane(c', LlaF) == c.frames.nedOriginF
      && ForeignValue(w, c', LlaF) == w.convert(UtmF, NedF, Utm(c.frames.utmOrigin, c.frames.utmOriginZone), c.utmF)
  {
  }

  lemma NedThenLla<V(!new), O(!new), P(!new)>(w: World<V, O, P>, c: Cache<V, O>, p: P)
    requires Reliable(w, c.frames) && Valid(c) && Denotes(w, c, p)
    requires c.status == {UtmF} && !c.frames.nedInitializedI && c.frames.utmInitializedF && SameZone(c)
    ensures Denotes(w, Step(w, c, Get(LlaF)), p) && Denotes(w, Step(w, c, Get(NedF)), p)
    ensures var ned := w.convert(UtmF, NedF, Utm(c.frames.utmOrigin, c.frames.utmOriginZone), c.utmF);
      Denotes(w, Step(w, Step(w, c, Get(NedF)), Get(LlaF)), p)
        == (w.point(EcefF, Nowhere, w.convert(NedF, EcefF, Ltp(c.frames.nedOriginF), ned)) == p)
  {
    UtmGetter(w, c);
    var c1 := Calc(w, c, NedF);
    GetIsCalc(w, c, LlaF);
    GetIsCalc(w, c, NedF);
    GetIsCalc(w, c1, LlaF);
    hide *;
    SourcedGetterDenotes(w, c, LlaF, p);
    SourcedGetterDenotes(w, c, NedF, p);
    ForeignReads(w, c1, LlaF, p);
  }

  lemma OutOfUnset(v: Vec)
    ensures var w := CodeWorld(); w.point(EcefF, Nowhere, w.convert(NedF, EcefF, Ltp(Unset()), v)) == ZERO
  {
    var e := NedOfEnu(v);
    assert MatVec(Transpose(Unset().m), e) == ZERO;
    hide NedOfEnu;
  }

  /** If it was set in UTM, and NED is asked for before LLA, that takes the NED coordinates through
      a tangent plane never set, which gives the centre of the earth. Asked for at once, LLA is
      right. */
  lemma NedBeforeLlaInput(o: Plane, zone: uint8, v: Vec)
    ensures var w, c, p := CodeWorld(), WithUtm(o, zone, UtmF, v), VecAdd(v, Shift(zone));
      && Denotes(w, c, p) && Denotes(w, Step(w, c, Get(LlaF)), p) && Denotes(w, Step(w, c, Get(NedF)), p)
      && (Denotes(w, Step(w, Step(w, c, Get(NedF)), Get(LlaF)), p) <==> p == ZERO)
  {
    var w, c, p := CodeWorld(), WithUtm(o, zone, UtmF, v), VecAdd(v, Shift(zone));
    hide *;
    WithUtmFacts(o, zone, UtmF, v);
    OutOfUnset(w.convert(UtmF, NedF, Utm(o, zone), v));
    NedThenLla(w, c, p);
  }
}
