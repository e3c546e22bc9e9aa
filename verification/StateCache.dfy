/** The lazy position cache of sw/airborne/state.c and state.h: nine representations of one
    position, a status bit for each, and getters that fill in what is missing.

    Conversions are abstract: `World.convert` gives the value a conversion produces and
    `World.point` the place a value denotes in a frame. */
module StateCache {
  import opened Bytes

  datatype Rep = EcefI | NedI | EnuI | LlaI | EcefF | NedF | EnuF | LlaF | UtmF

  predicate Local(r: Rep) {
    r == NedI || r == EnuI || r == NedF || r == EnuF
  }

  /** What local and UTM coordinates are relative to: a tangent plane, an origin in a UTM zone,
      or a zone alone. */
  datatype Origin<O> = Nowhere | Ltp(ltp: O) | Utm(utm: O, zone: uint8) | Zone(zone: uint8)

  /** `proper` tells a tangent plane through which the conversions go there and back; `floatPlane`
      is the float one that is derived from an integer one, and need not be proper. */
  datatype World<!V, !O, !P> = World(
    convert: (Rep, Rep, Origin<O>, V) -> V,
    point: (Rep, Origin<O>, V) -> P,
    floatPlane: O -> O,
    proper: O -> bool)

  /** The two tangent planes ned_origin_i and ned_origin_f, the UTM origin with its zone, and the
      zone field of utm_pos_f, which no conversion writes. */
  datatype Frames<O> = Frames(
    nedInitializedI: bool, nedInitializedF: bool, utmInitializedF: bool,
    nedOrigin: O, nedOriginF: O, utmOrigin: O, utmOriginZone: uint8, zone: uint8)

  datatype Cache<V, O> = Cache(
    status: set<Rep>,
    ecefI: V, nedI: V, enuI: V, llaI: V,
    ecefF: V, nedF: V, enuF: V, llaF: V, utmF: V,
    frames: Frames<O>)

  function Value<V, O>(c: Cache<V, O>, r: Rep): V {
    match r
    case EcefI => c.ecefI
    case NedI => c.nedI
    case EnuI => c.enuI
    case LlaI => c.llaI
    case EcefF => c.ecefF
    case NedF => c.nedF
    case EnuF => c.enuF
    case LlaF => c.llaF
    case UtmF => c.utmF
  }

  function Put<V, O>(c: Cache<V, O>, r: Rep, v: V): Cache<V, O> {
    match r
    case EcefI => c.(ecefI := v)
    case NedI => c.(nedI := v)
    case EnuI => c.(enuI := v)
    case LlaI => c.(llaI := v)
    case EcefF => c.(ecefF := v)
    case NedF => c.(nedF := v)
    case EnuF => c.(enuF := v)
    case LlaF => c.(llaF := v)
    case UtmF => c.(utmF := v)
  }

  predicate Has<V, O>(c: Cache<V, O>, r: Rep) {
    r in c.status
  }

  function Mark<V, O>(c: Cache<V, O>, r: Rep): Cache<V, O> {
    c.(status := c.status + {r})
  }

  function LocalFrame<O>(fr: Frames<O>): Origin<O> {
    if fr.nedInitializedI then Ltp(fr.nedOrigin)
    else if fr.utmInitializedF then Utm(fr.utmOrigin, fr.utmOriginZone)
    else Nowhere
  }

  /** What the values of a representation are relative to. */
  function RelativeTo<O>(fr: Frames<O>, r: Rep): Origin<O> {
    if Local(r) then LocalFrame(fr) else if r == UtmF then Zone(fr.zone) else Nowhere
  }

  /** The two flags of the local frame are only ever set together. */
  predicate Valid<V, O>(c: Cache<V, O>) {
    c.frames.nedInitializedI == c.frames.nedInitializedF
  }

  // ---------- Getters, as the chain of conversions they choose ----------

  /** One conversion: the value of `read` is converted from `from` to `to`, stored there, and
      `mark` is marked. All conversions but two have `read == from` and `mark == to`. */
  datatype Hop<O> = Hop(read: Rep, from: Rep, to: Rep, mark: Rep, frame: Origin<O>)

  datatype Path<O> =
    | NoSource
    | One(h1: Hop<O>)
    | Two(h1: Hop<O>, h2: Hop<O>)
    | Three(h1: Hop<O>, h2: Hop<O>, h3: Hop<O>)
    | Four(h1: Hop<O>, h2: Hop<O>, h3: Hop<O>, h4: Hop<O>)

  function Via<O>(from: Rep, to: Rep, frame: Origin<O>): Hop<O> {
    Hop(from, from, to, to, frame)
  }

  function Store<V, O, P>(w: World<V, O, P>, c: Cache<V, O>, h: Hop<O>): Cache<V, O> {
    Put(c, h.to, w.convert(h.from, h.to, h.frame, Value(c, h.read)))
  }

  lemma StoreIgnoresMark<V, O, P>(w: World<V, O, P>, c: Cache<V, O>, h: Hop<O>, mark: Rep)
    ensures Store(w, c, h) == Store(w, c, h.(mark := mark))
  {
  }

  /** An intermediate conversion, marked at once. */
  function Take<V, O, P>(w: World<V, O, P>, c: Cache<V, O>, h: Hop<O>): Cache<V, O> {
    Mark(Store(w, c, h), h.mark)
  }

  /** The conversions of a path; the last one is left for the getter to mark. */
  function Apply<V, O, P>(w: World<V, O, P>, c: Cache<V, O>, path: Path<O>): Cache<V, O> {
    match path
    case NoSource => c
    case One(h1) => Store(w, c, h1)
    case Two(h1, h2) => Store(w, Take(w, c, h1), h2)
    case Three(h1, h2, h3) => Store(w, Take(w, Take(w, c, h1), h2), h3)
    case Four(h1, h2, h3, h4) => Store(w, Take(w, Take(w, Take(w, c, h1), h2), h3), h4)
  }

  function PathEcefI<V, O>(c: Cache<V, O>): Path<O> {
    var ltp, ltpF := Ltp(c.frames.nedOrigin), Ltp(c.frames.nedOriginF);
    if Has(c, EcefF) then One(Via(EcefF, EcefI, Nowhere))
    else if Has(c, NedI) then One(Via(NedI, EcefI, ltp))
    else if Has(c, NedF) then Two(Via(NedF, EcefF, ltpF), Via(EcefF, EcefI, Nowhere))
    else if Has(c, LlaF) then Two(Via(LlaF, EcefF, Nowhere), Via(EcefF, EcefI, Nowhere))
    else if Has(c, LlaI) then One(Via(LlaI, EcefI, Nowhere))
    else NoSource
  }

  function NedIByLtp<V, O>(c: Cache<V, O>): Path<O> {
    var ltp, ltpF := Ltp(c.frames.nedOrigin), Ltp(c.frames.nedOriginF);
    if Has(c, NedF) then One(Via(NedF, NedI, Nowhere))
    else if Has(c, EnuI) then One(Via(EnuI, NedI, Nowhere))
    else if Has(c, EnuF) then Two(Via(EnuF, EnuI, Nowhere), Via(EnuI, NedI, Nowhere))
    else if Has(c, EcefI) then One(Via(EcefI, NedI, ltp))
    else if Has(c, EcefF) then Two(Via(EcefF, NedF, ltpF), Via(NedF, NedI, Nowhere))
    else if Has(c, LlaF) then Three(Via(LlaF, EcefF, Nowhere), Via(EcefF, NedF, ltpF), Via(NedF, NedI, Nowhere))
    else if Has(c, LlaI) then One(Via(LlaI, NedI, ltp))
    else NoSource
  }

  function NedIByUtm<V, O>(c: Cache<V, O>): Path<O> {
    var utm, zone := Utm(c.frames.utmOrigin, c.frames.utmOriginZone), Zone(c.frames.zone);
    if Has(c, NedF) then One(Via(NedF, NedI, Nowhere))
    else if Has(c, EnuI) then One(Via(EnuI, NedI, Nowhere))
    else if Has(c, EnuF) then Two(Via(EnuF, EnuI, Nowhere), Via(EnuI, NedI, Nowhere))
    else if Has(c, UtmF) then Two(Via(UtmF, NedF, utm), Via(NedF, NedI, Nowhere))
    else if Has(c, LlaF) then Three(Via(LlaF, UtmF, zone), Via(UtmF, NedF, utm), Via(NedF, NedI, Nowhere))
    else if Has(c, LlaI) then
      Four(Via(LlaI, LlaF, Nowhere), Via(LlaF, UtmF, zone), Via(UtmF, NedF, utm),
           Via(NedF, NedI, Nowhere))
    else NoSource
  }

  function PathNedI<V, O>(c: Cache<V, O>): Path<O> {
    if c.frames.nedInitializedI then NedIByLtp(c)
    else if c.frames.utmInitializedF then NedIByUtm(c)
    else NoSource
  }

  function EnuIByLtp<V, O>(c: Cache<V, O>): Path<O> {
    var ltp, ltpF := Ltp(c.frames.nedOrigin), Ltp(c.frames.nedOriginF);
    if Has(c, NedI) then One(Via(NedI, EnuI, Nowhere))
    else if Has(c, EnuF) then One(Via(EnuF, EnuI, Nowhere))
    else if Has(c, NedF) then Two(Via(NedF, NedI, Nowhere), Via(NedI, EnuI, Nowhere))
    else if Has(c, EcefI) then One(Via(EcefI, EnuI, ltp))
    else if Has(c, EcefF) then Two(Via(EcefF, EnuF, ltpF), Via(EnuF, EnuI, Nowhere))
    else if Has(c, LlaF) then Three(Via(LlaF, EcefF, Nowhere), Via(EcefF, EnuF, ltpF), Via(EnuF, EnuI, Nowhere))
    else if Has(c, LlaI) then One(Via(LlaI, EnuI, ltp))
    else NoSource
  }

  function EnuIByUtm<V, O>(c: Cache<V, O>): Path<O> {
    var utm, zone := Utm(c.frames.utmOrigin, c.frames.utmOriginZone), Zone(c.frames.zone);
    if Has(c, EnuF) then One(Via(EnuF, EnuI, Nowhere))
    else if Has(c, NedI) then One(Via(NedI, EnuI, Nowhere))
    else if Has(c, NedF) then Two(Via(NedF, NedI, Nowhere), Via(NedI, EnuI, Nowhere))
    else if Has(c, UtmF) then Two(Via(UtmF, EnuF, utm), Via(EnuF, EnuI, Nowhere))
    else if Has(c, LlaF) then Three(Via(LlaF, UtmF, zone), Via(UtmF, EnuF, utm), Via(EnuF, EnuI, Nowhere))
    else if Has(c, LlaI) then
      Four(Via(LlaI, LlaF, Nowhere), Via(LlaF, UtmF, zone), Via(UtmF, EnuF, utm),
           Via(EnuF, EnuI, Nowhere))
    else NoSource
  }

  function PathEnuI<V, O>(c: Cache<V, O>): Path<O> {
    if c.frames.nedInitializedI then EnuIByLtp(c)
    else if c.frames.utmInitializedF then EnuIByUtm(c)
    else NoSource
  }

  function PathLlaI<V, O>(c: Cache<V, O>): Path<O> {
    var ltp, ltpF, zone := Ltp(c.frames.nedOrigin), Ltp(c.frames.nedOriginF), Zone(c.frames.zone);
    if Has(c, LlaF) then One(Via(LlaF, LlaI, Nowhere))
    else if Has(c, EcefI) then One(Via(EcefI, LlaI, Nowhere))
    else if Has(c, EcefF) then Two(Via(EcefF, LlaF, Nowhere), Via(LlaF, LlaI, Nowhere))
    else if Has(c, NedF) then Three(Via(NedF, EcefF, ltpF), Via(EcefF, LlaF, Nowhere), Via(LlaF, LlaI, Nowhere))
    else if Has(c, NedI) then Two(Via(NedI, EcefI, ltp), Via(EcefI, LlaI, Nowhere))
    else if Has(c, UtmF) then Two(Via(UtmF, LlaF, zone), Via(LlaF, LlaI, Nowhere))
    else NoSource
  }

  function PathUtmF<V, O>(c: Cache<V, O>): Path<O> {
    var zone := Zone(c.frames.zone);
    if Has(c, LlaF) then One(Via(LlaF, UtmF, zone))
    else if Has(c, LlaI) then Two(Via(LlaI, LlaF, Nowhere), Via(LlaF, UtmF, zone))
    else NoSource
  }

  function PathEcefF<V, O>(c: Cache<V, O>): Path<O> {
    var ltp, ltpF := Ltp(c.frames.nedOrigin), Ltp(c.frames.nedOriginF);
    if Has(c, EcefI) then One(Via(EcefI, EcefF, Nowhere))
    else if Has(c, NedF) then One(Via(NedF, EcefF, ltpF))
    else if Has(c, NedI) then Two(Hop(NedI, NedI, EcefI, EcefF, ltp), Via(EcefI, EcefF, Nowhere))
    else if Has(c, LlaF) then One(Via(LlaF, EcefF, Nowhere))
    else if Has(c, LlaI) then Two(Via(LlaI, LlaF, Nowhere), Via(LlaF, EcefF, Nowhere))
    else NoSource
  }

  function NedFByLtp<V, O>(c: Cache<V, O>): Path<O> {
    var ltp, ltpF := Ltp(c.frames.nedOrigin), Ltp(c.frames.nedOriginF);
    if Has(c, NedI) then One(Via(NedI, NedF, Nowhere))
    else if Has(c, EcefF) then One(Via(EcefF, NedF, ltpF))
    else if Has(c, EcefI) then Two(Via(EcefI, NedI, ltp), Via(NedI, NedF, Nowhere))
    else if Has(c, LlaF) then One(Via(LlaF, NedF, ltpF))
    else if Has(c, LlaI) then Three(Via(LlaI, EcefI, Nowhere), Via(EcefI, NedI, ltp), Via(NedI, NedF, Nowhere))
    else NoSource
  }

  function NedFByUtm<V, O>(c: Cache<V, O>): Path<O> {
    var utm, zone := Utm(c.frames.utmOrigin, c.frames.utmOriginZone), Zone(c.frames.zone);
    if Has(c, NedI) then One(Via(NedI, NedF, Nowhere))
    else if Has(c, EnuI) then Two(Via(EnuI, EnuF, Nowhere), Via(EnuF, NedF, Nowhere))
    else if Has(c, EnuF) then One(Via(EnuF, NedF, Nowhere))
    else if Has(c, UtmF) then One(Via(UtmF, NedF, utm))
    else if Has(c, LlaF) then Two(Via(LlaF, UtmF, zone), Via(UtmF, NedF, utm))
    else if Has(c, LlaI) then Three(Via(LlaI, LlaF, Nowhere), Via(LlaF, UtmF, zone), Via(UtmF, NedF, utm))
    else NoSource
  }

  function PathNedF<V, O>(c: Cache<V, O>): Path<O> {
    if c.frames.nedInitializedF then NedFByLtp(c)
    else if c.frames.utmInitializedF then NedFByUtm(c)
    else NoSource
  }

  function EnuFByLtp<V, O>(c: Cache<V, O>): Path<O> {
    var ltp, ltpF := Ltp(c.frames.nedOrigin), Ltp(c.frames.nedOriginF);
    if Has(c, NedF) then One(Via(NedF, EnuF, Nowhere))
    else if Has(c, EnuI) then One(Via(EnuI, EnuF, Nowhere))
    else if Has(c, NedI) then Two(Via(NedI, NedF, Nowhere), Via(NedF, EnuF, Nowhere))
    else if Has(c, EcefF) then One(Via(EcefF, EnuF, ltpF))
    else if Has(c, EcefI) then Two(Via(EcefI, EnuI, ltp), Via(EnuI, EnuF, Nowhere))
    else if Has(c, LlaF) then One(Via(LlaF, EnuF, ltpF))
    else if Has(c, LlaI) then Three(Via(LlaI, EcefI, Nowhere), Via(EcefI, EnuI, ltp), Via(EnuI, EnuF, Nowhere))
    else NoSource
  }

  function EnuFByUtm<V, O>(c: Cache<V, O>): Path<O> {
    var utm, zone := Utm(c.frames.utmOrigin, c.frames.utmOriginZone), Zone(c.frames.zone);
    if Has(c, EnuI) then One(Via(EnuI, EnuF, Nowhere))
    else if Has(c, NedF) then One(Via(NedF, EnuF, Nowhere))
    else if Has(c, NedI) then Two(Via(NedI, NedF, Nowhere), Via(NedF, EnuF, Nowhere))
    else if Has(c, UtmF) then One(Via(UtmF, EnuF, utm))
    else if Has(c, LlaF) then Two(Via(LlaF, UtmF, zone), Via(UtmF, EnuF, utm))
    else if Has(c, LlaI) then Three(Via(LlaI, LlaF, Nowhere), Via(LlaF, UtmF, zone), Via(UtmF, EnuF, utm))
    else NoSource
  }

  function PathEnuF<V, O>(c: Cache<V, O>): Path<O> {
    if c.frames.nedInitializedF then EnuFByLtp(c)
    else if c.frames.utmInitializedF then EnuFByUtm(c)
    else NoSource
  }

  function PathLlaF<V, O>(c: Cache<V, O>): Path<O> {
    var ltpF, zone := Ltp(c.frames.nedOriginF), Zone(c.frames.zone);
    if Has(c, LlaI) then One(Hop(LlaF, LlaI, LlaF, LlaF, Nowhere))
    else if Has(c, EcefF) then One(Via(EcefF, LlaF, Nowhere))
    else if Has(c, EcefI) then Two(Via(EcefI, EcefF, Nowhere), Via(EcefF, LlaF, Nowhere))
    else if Has(c, NedF) then Two(Via(NedF, EcefF, ltpF), Via(EcefF, LlaF, Nowhere))
    else if Has(c, NedI) then Three(Via(NedI, NedF, Nowhere), Via(NedF, EcefF, ltpF), Via(EcefF, LlaF, Nowhere))
    else if Has(c, UtmF) then One(Via(UtmF, LlaF, zone))
    else NoSource
  }

  function PathOf<V, O>(c: Cache<V, O>, target: Rep): Path<O> {
    match target
    case EcefI => PathEcefI(c)
    case NedI => PathNedI(c)
    case EnuI => PathEnuI(c)
    case LlaI => PathLlaI(c)
    case EcefF => PathEcefF(c)
    case NedF => PathNedF(c)
    case EnuF => PathEnuF(c)
    case LlaF => PathLlaF(c)
    case UtmF => PathUtmF(c)
  }

  /** The cache after the getter of `target`. */
  function Calc<V, O, P>(w: World<V, O, P>, c: Cache<V, O>, target: Rep): Cache<V, O> {
    if Has(c, target) then c else Mark(Apply(w, c, PathOf(c, target)), target)
  }

  /** What each stateSetPosition function of one argument does: the new value is the only one
      marked. One in UTM comes with its zone. */
  function Set<V, O>(c: Cache<V, O>, r: Rep, v: V, zone: uint8): Cache<V, O> {
    Put(c, r, v).(status := {r}, frames := if r == UtmF then c.frames.(zone := zone) else c.frames)
  }

  function MoveOrigin<V, O, P>(w: World<V, O, P>, c: Cache<V, O>, origin: O): Cache<V, O> {
    c.(frames := c.frames.(nedOrigin := origin, nedOriginF := w.floatPlane(origin),
                           nedInitializedI := true, nedInitializedF := true),
       status := c.status - {NedI, NedF, EnuI, EnuF})
  }

  function MoveUtmOrigin<V, O>(c: Cache<V, O>, origin: O, zone: uint8): Cache<V, O> {
    c.(frames := c.frames.(utmOrigin := origin, utmOriginZone := zone, utmInitializedF := true),
       status := c.status - {NedI, NedF, EnuI, EnuF})
  }

  // ---------- The structure, updated in place ----------

  class State<V(0), O(0), P> {
    const world: World<V, O, P>
    var posStatus: set<Rep> // pos_status, one bit a representation
    var ecefPosI: V
    var nedPosI: V
    var enuPosI: V
    var llaPosI: V
    var ecefPosF: V
    var nedPosF: V
    var enuPosF: V
    var llaPosF: V
    var utmPosF: V
    var nedInitializedI: bool
    var nedInitializedF: bool
    var utmInitializedF: bool
    var nedOrigin: O // ned_origin_i
    var nedOriginF: O // ned_origin_f
    var utmOrigin: O
    var utmOriginZone: uint8
    var utmPosZone: uint8 // utm_pos_f.zone

    function View(): Cache<V, O>
      reads this
    {
      Cache(posStatus, ecefPosI, nedPosI, enuPosI, llaPosI, ecefPosF, nedPosF, enuPosF, llaPosF, utmPosF,
            Frames(nedInitializedI, nedInitializedF, utmInitializedF,
                   nedOrigin, nedOriginF, utmOrigin, utmOriginZone, utmPosZone))
    }

    constructor (world: World<V, O, P>)
      ensures this.world == world && posStatus == {}
      ensures !nedInitializedI && !nedInitializedF && !utmInitializedF
    {
      this.world := world;
      posStatus := {};
      nedInitializedI, nedInitializedF, utmInitializedF := false, false, false;
    }

    lemma ViewFields()
      ensures View().frames.nedOrigin == nedOrigin && View().frames.nedOriginF == nedOriginF
      ensures View().frames.utmOrigin == utmOrigin && View().frames.utmOriginZone == utmOriginZone
      ensures View().frames.zone == utmPosZone
      ensures forall r: Rep :: Has(View(), r) <==> r in posStatus
    {
    }

    method SetBit(r: Rep)
      modifies this`posStatus
      ensures View() == Mark(old(View()), r)
    {
      posStatus := posStatus + {r};
    }

    method Write(r: Rep, v: V)
      modifies this`ecefPosI, this`nedPosI, this`enuPosI, this`llaPosI
      modifies this`ecefPosF, this`nedPosF, this`enuPosF, this`llaPosF, this`utmPosF
      ensures View() == Put(old(View()), r, v)
    {
      match r {
        case EcefI => ecefPosI := v;
        case NedI => nedPosI := v;
        case EnuI => enuPosI := v;
        case LlaI => llaPosI := v;
        case EcefF => ecefPosF := v;
        case NedF => nedPosF := v;
        case EnuF => enuPosF := v;
        case LlaF => llaPosF := v;
        case UtmF => utmPosF := v;
      }
    }

    /** Overwrite representation `to` with the value of `read`, converted as `from`. */
    method Convert(read: Rep, from: Rep, to: Rep, origin: Origin<O>)
      modifies this`ecefPosI, this`nedPosI, this`enuPosI, this`llaPosI
      modifies this`ecefPosF, this`nedPosF, this`enuPosF, this`llaPosF, this`utmPosF
      ensures View() == Store(world, old(View()), Hop(read, from, to, to, origin))
    {
      var v := world.convert(from, to, origin, Value(View(), read));
      Write(to, v);
    }

    method CalcPositionEcefI()
      modifies this`posStatus, this`ecefPosI, this`nedPosI, this`enuPosI, this`llaPosI
      modifies this`ecefPosF, this`nedPosF, this`enuPosF, this`llaPosF, this`utmPosF
      ensures View() == Calc(world, old(View()), EcefI)
    {
      ViewFields();
      hide Store, Mark, View, Has;
      if EcefI in posStatus {
        return;
      }
      if EcefF in posStatus {
        Convert(EcefF, EcefF, EcefI, Nowhere);
      } else if NedI in posStatus {
        Convert(NedI, NedI, EcefI, Ltp(nedOrigin));
      } else if NedF in posStatus {
        Convert(NedF, NedF, EcefF, Ltp(nedOriginF));
        SetBit(EcefF);
        Convert(EcefF, EcefF, EcefI, Nowhere);
      } else if LlaF in posStatus {
        Convert(LlaF, LlaF, EcefF, Nowhere);
        SetBit(EcefF);
        Convert(EcefF, EcefF, EcefI, Nowhere);
      } else if LlaI in posStatus {
        Convert(LlaI, LlaI, EcefI, Nowhere);
      }
      SetBit(EcefI);
    }

    method CalcNedIByLtp()
      modifies this`posStatus, this`ecefPosI, this`nedPosI, this`enuPosI, this`llaPosI
      modifies this`ecefPosF, this`nedPosF, this`enuPosF, this`llaPosF, this`utmPosF
      ensures View() == Apply(world, old(View()), NedIByLtp(old(View())))
    {
      ViewFields();
      hide Store, Mark, View, Has;
      if NedF in posStatus {
        Convert(NedF, NedF, NedI, Nowhere);
      } else if EnuI in posStatus {
        Convert(EnuI, EnuI, NedI, Nowhere);
      } else if EnuF in posStatus {
        Convert(EnuF, EnuF, EnuI, Nowhere);
        SetBit(EnuI);
        Convert(EnuI, EnuI, NedI, Nowhere);
      } else if EcefI in posStatus {
        Convert(EcefI, EcefI, NedI, Ltp(nedOrigin));
      } else if EcefF in posStatus {
        Convert(EcefF, EcefF, NedF, Ltp(nedOriginF));
        SetBit(NedF);
        Convert(NedF, NedF, NedI, Nowhere);
      } else if LlaF in posStatus {
        Convert(LlaF, LlaF, EcefF, Nowhere);
        SetBit(EcefF);
        Convert(EcefF, EcefF, NedF, Ltp(nedOriginF));
        SetBit(NedF);
        Convert(NedF, NedF, NedI, Nowhere);
      } else if LlaI in posStatus {
        Convert(LlaI, LlaI, NedI, Ltp(nedOrigin));
      }
    }

    method CalcNedIByUtm()
      modifies this`posStatus, this`ecefPosI, this`nedPosI, this`enuPosI, this`llaPosI
      modifies this`ecefPosF, this`nedPosF, this`enuPosF, this`llaPosF, this`utmPosF
      ensures View() == Apply(world, old(View()), NedIByUtm(old(View())))
    {
      ViewFields();
      hide Store, Mark, View, Has;
      if NedF in posStatus {
        Convert(NedF, NedF, NedI, Nowhere);
      } else if EnuI in posStatus {
        Convert(EnuI, EnuI, NedI, Nowhere);
      } else if EnuF in posStatus {
        Convert(EnuF, EnuF, EnuI, Nowhere);
        SetBit(EnuI);
        Convert(EnuI, EnuI, NedI, Nowhere);
      } else if UtmF in posStatus {
        Convert(UtmF, UtmF, NedF, Utm(utmOrigin, utmOriginZone));
        SetBit(NedF);
        Convert(NedF, NedF, NedI, Nowhere);
      } else if LlaF in posStatus {
        Convert(LlaF, LlaF, UtmF, Zone(utmPosZone));
        SetBit(UtmF);
        Convert(UtmF, UtmF, NedF, Utm(utmOrigin, utmOriginZone));
        SetBit(NedF);
        Convert(NedF, NedF, NedI, Nowhere);
      } else if LlaI in posStatus {
        Convert(LlaI, LlaI, LlaF, Nowhere);
        SetBit(LlaF);
        Convert(LlaF, LlaF, UtmF, Zone(utmPosZone));
        SetBit(UtmF);
        Convert(UtmF, UtmF, NedF, Utm(utmOrigin, utmOriginZone));
        SetBit(NedF);
        Convert(NedF, NedF, NedI, Nowhere);
      }
    }

    method CalcPositionNedI()
      modifies this`posStatus, this`ecefPosI, this`nedPosI, this`enuPosI, this`llaPosI
      modifies this`ecefPosF, this`nedPosF, this`enuPosF, this`llaPosF, this`utmPosF
      ensures View() == Calc(world, old(View()), NedI)
    {
      hide Put, Mark, Value, NedIByLtp, NedIByUtm;
      if NedI in posStatus {
        return;
      }
      if nedInitializedI {
        CalcNedIByLtp();
      } else if utmInitializedF {
        CalcNedIByUtm();
      }
      SetBit(NedI);
    }

    method CalcEnuIByLtp()
      modifies this`posStatus, this`ecefPosI, this`nedPosI, this`enuPosI, this`llaPosI
      modifies this`ecefPosF, this`nedPosF, this`enuPosF, this`llaPosF, this`utmPosF
      ensures View() == Apply(world, old(View()), EnuIByLtp(old(View())))
    {
      ViewFields();
      hide Store, Mark, View, Has;
      if NedI in posStatus {
        Convert(NedI, NedI, EnuI, Nowhere);
      } else if EnuF in posStatus {
        Convert(EnuF, EnuF, EnuI, Nowhere);
      } else if NedF in posStatus {
        Convert(NedF, NedF, NedI, Nowhere);
        SetBit(NedI);
        Convert(NedI, NedI, EnuI, Nowhere);
      } else if EcefI in posStatus {
        Convert(EcefI, EcefI, EnuI, Ltp(nedOrigin));
      } else if EcefF in posStatus {
        Convert(EcefF, EcefF, EnuF, Ltp(nedOriginF));
        SetBit(EnuF);
        Convert(EnuF, EnuF, EnuI, Nowhere);
      } else if LlaF in posStatus {
        Convert(LlaF, LlaF, EcefF, Nowhere);
        SetBit(EcefF);
        Convert(EcefF, EcefF, EnuF, Ltp(nedOriginF));
        SetBit(EnuF);
        Convert(EnuF, EnuF, EnuI, Nowhere);
      } else if LlaI in posStatus {
        Convert(LlaI, LlaI, EnuI, Ltp(nedOrigin));
      }
    }

    method CalcEnuIByUtm()
      modifies this`posStatus, this`ecefPosI, this`nedPosI, this`enuPosI, this`llaPosI
      modifies this`ecefPosF, this`nedPosF, this`enuPosF, this`llaPosF, this`utmPosF
      ensures View() == Apply(world, old(View()), EnuIByUtm(old(View())))
    {
      ViewFields();
      hide Store, Mark, View, Has;
      if EnuF in posStatus {
        Convert(EnuF, EnuF, EnuI, Nowhere);
      } else if NedI in posStatus {
        Convert(NedI, NedI, EnuI, Nowhere);
      } else if NedF in posStatus {
        Convert(NedF, NedF, NedI, Nowhere);
        SetBit(NedI);
        Convert(NedI, NedI, EnuI, Nowhere);
      } else if UtmF in posStatus {
        Convert(UtmF, UtmF, EnuF, Utm(utmOrigin, utmOriginZone));
        SetBit(EnuF);
        Convert(EnuF, EnuF, EnuI, Nowhere);
      } else if LlaF in posStatus {
        Convert(LlaF, LlaF, UtmF, Zone(utmPosZone));
        SetBit(UtmF);
        Convert(UtmF, UtmF, EnuF, Utm(utmOrigin, utmOriginZone));
        SetBit(EnuF);
        Convert(EnuF, EnuF, EnuI, Nowhere);
      } else if LlaI in posStatus {
        Convert(LlaI, LlaI, LlaF, Nowhere);
        SetBit(LlaF);
        Convert(LlaF, LlaF, UtmF, Zone(utmPosZone));
        SetBit(UtmF);
        Convert(UtmF, UtmF, EnuF, Utm(utmOrigin, utmOriginZone));
        SetBit(EnuF);
        Convert(EnuF, EnuF, EnuI, Nowhere);
      }
    }

    method CalcPositionEnuI()
      modifies this`posStatus, this`ecefPosI, this`nedPosI, this`enuPosI, this`llaPosI
      modifies this`ecefPosF, this`nedPosF, this`enuPosF, this`llaPosF, this`utmPosF
      ensures View() == Calc(world, old(View()), EnuI)
    {
      hide Put, Mark, Value, EnuIByLtp, EnuIByUtm;
      if EnuI in posStatus {
        return;
      }
      if nedInitializedI {
        CalcEnuIByLtp();
      } else if utmInitializedF {
        CalcEnuIByUtm();
      }
      SetBit(EnuI);
    }

    method CalcPositionLlaI()
      modifies this`posStatus, this`ecefPosI, this`nedPosI, this`enuPosI, this`llaPosI
      modifies this`ecefPosF, this`nedPosF, this`enuPosF, this`llaPosF, this`utmPosF
      ensures View() == Calc(world, old(View()), LlaI)
    {
      ViewFields();
      hide Store, Mark, View, Has;
      if LlaI in posStatus {
        return;
      }
      if LlaF in posStatus {
        Convert(LlaF, LlaF, LlaI, Nowhere);
      } else if EcefI in posStatus {
        Convert(EcefI, EcefI, LlaI, Nowhere);
      } else if EcefF in posStatus {
        Convert(EcefF, EcefF, LlaF, Nowhere);
        SetBit(LlaF);
        Convert(LlaF, LlaF, LlaI, Nowhere);
      } else if NedF in posStatus {
        Convert(NedF, NedF, EcefF, Ltp(nedOriginF));
        SetBit(EcefF);
        Convert(EcefF, EcefF, LlaF, Nowhere);
        SetBit(LlaF);
        Convert(LlaF, LlaF, LlaI, Nowhere);
      } else if NedI in posStatus {
        Convert(NedI, NedI, EcefI, Ltp(nedOrigin));
        SetBit(EcefI);
        Convert(EcefI, EcefI, LlaI, Nowhere);
      } else if UtmF in posStatus {
        Convert(UtmF, UtmF, LlaF, Zone(utmPosZone));
        SetBit(LlaF);
        Convert(LlaF, LlaF, LlaI, Nowhere);
      }
      SetBit(LlaI);
    }

    method CalcPositionUtmF()
      modifies this`posStatus, this`ecefPosI, this`nedPosI, this`enuPosI, this`llaPosI
      modifies this`ecefPosF, this`nedPosF, this`enuPosF, this`llaPosF, this`utmPosF
      ensures View() == Calc(world, old(View()), UtmF)
    {
      ViewFields();
      hide Store, Mark, View, Has;
      if UtmF in posStatus {
        return;
      }
      if LlaF in posStatus {
        Convert(LlaF, LlaF, UtmF, Zone(utmPosZone));
      } else if LlaI in posStatus {
        Convert(LlaI, LlaI, LlaF, Nowhere);
        SetBit(LlaF);
        Convert(LlaF, LlaF, UtmF, Zone(utmPosZone));
      }
      SetBit(UtmF);
    }

    method CalcPositionEcefF()
      modifies this`posStatus, this`ecefPosI, this`nedPosI, this`enuPosI, this`llaPosI
      modifies this`ecefPosF, this`nedPosF, this`enuPosF, this`llaPosF, this`utmPosF
      ensures View() == Calc(world, old(View()), EcefF)
    {
      ViewFields();
      hide Store, Mark, View, Has;
      if EcefF in posStatus {
        return;
      }
      if EcefI in posStatus {
        Convert(EcefI, EcefI, EcefF, Nowhere);
      } else if NedF in posStatus {
        Convert(NedF, NedF, EcefF, Ltp(nedOriginF));
      } else if NedI in posStatus {
        StoreIgnoresMark(world, View(), Via(NedI, EcefI, Ltp(nedOrigin)), EcefF);
        Convert(NedI, NedI, EcefI, Ltp(nedOrigin));
        SetBit(EcefF);
        Convert(EcefI, EcefI, EcefF, Nowhere);
      } else if LlaF in posStatus {
        Convert(LlaF, LlaF, EcefF, Nowhere);
      } else if LlaI in posStatus {
        Convert(LlaI, LlaI, LlaF, Nowhere);
        SetBit(LlaF);
        Convert(LlaF, LlaF, EcefF, Nowhere);
      }
      SetBit(EcefF);
    }

    method CalcNedFByLtp()
      modifies this`posStatus, this`ecefPosI, this`nedPosI, this`enuPosI, this`llaPosI
      modifies this`ecefPosF, this`nedPosF, this`enuPosF, this`llaPosF, this`utmPosF
      ensures View() == Apply(world, old(View()), NedFByLtp(old(View())))
    {
      ViewFields();
      hide Store, Mark, View, Has;
      if NedI in posStatus {
        Convert(NedI, NedI, NedF, Nowhere);
      } else if EcefF in posStatus {
        Convert(EcefF, EcefF, NedF, Ltp(nedOriginF));
      } else if EcefI in posStatus {
        Convert(EcefI, EcefI, NedI, Ltp(nedOrigin));
        SetBit(NedI);
        Convert(NedI, NedI, NedF, Nowhere);
      } else if LlaF in posStatus {
        Convert(LlaF, LlaF, NedF, Ltp(nedOriginF));
      } else if LlaI in posStatus {
        Convert(LlaI, LlaI, EcefI, Nowhere);
        SetBit(EcefI);
        Convert(EcefI, EcefI, NedI, Ltp(nedOrigin));
        SetBit(NedI);
        Convert(NedI, NedI, NedF, Nowhere);
      }
    }

    method CalcNedFByUtm()
      modifies this`posStatus, this`ecefPosI, this`nedPosI, this`enuPosI, this`llaPosI
      modifies this`ecefPosF, this`nedPosF, this`enuPosF, this`llaPosF, this`utmPosF
      ensures View() == Apply(world, old(View()), NedFByUtm(old(View())))
    {
      ViewFields();
      hide Store, Mark, View, Has;
      if NedI in posStatus {
        Convert(NedI, NedI, NedF, Nowhere);
      } else if EnuI in posStatus {
        Convert(EnuI, EnuI, EnuF, Nowhere);
        SetBit(EnuF);
        Convert(EnuF, EnuF, NedF, Nowhere);
      } else if EnuF in posStatus {
        Convert(EnuF, EnuF, NedF, Nowhere);
      } else if UtmF in posStatus {
        Convert(UtmF, UtmF, NedF, Utm(utmOrigin, utmOriginZone));
      } else if LlaF in posStatus {
        Convert(LlaF, LlaF, UtmF, Zone(utmPosZone));
        SetBit(UtmF);
        Convert(UtmF, UtmF, NedF, Utm(utmOrigin, utmOriginZone));
      } else if LlaI in posStatus {
        Convert(LlaI, LlaI, LlaF, Nowhere);
        SetBit(LlaF);
        Convert(LlaF, LlaF, UtmF, Zone(utmPosZone));
        SetBit(UtmF);
        Convert(UtmF, UtmF, NedF, Utm(utmOrigin, utmOriginZone));
      }
    }

    method CalcPositionNedF()
      modifies this`posStatus, this`ecefPosI, this`nedPosI, this`enuPosI, this`llaPosI
      modifies this`ecefPosF, this`nedPosF, this`enuPosF, this`llaPosF, this`utmPosF
      ensures View() == Calc(world, old(View()), NedF)
    {
      hide Put, Mark, Value, NedFByLtp, NedFByUtm;
      if NedF in posStatus {
        return;
      }
      if nedInitializedF {
        CalcNedFByLtp();
      } else if utmInitializedF {
        CalcNedFByUtm();
      }
      SetBit(NedF);
    }

    method CalcEnuFByLtp()
      modifies this`posStatus, this`ecefPosI, this`nedPosI, this`enuPosI, this`llaPosI
      modifies this`ecefPosF, this`nedPosF, this`enuPosF, this`llaPosF, this`utmPosF
      ensures View() == Apply(world, old(View()), EnuFByLtp(old(View())))
    {
      ViewFields();
      hide Store, Mark, View, Has;
      if NedF in posStatus {
        Convert(NedF, NedF, EnuF, Nowhere);
      } else if EnuI in posStatus {
        Convert(EnuI, EnuI, EnuF, Nowhere);
      } else if NedI in posStatus {
        Convert(NedI, NedI, NedF, Nowhere);
        SetBit(NedF);
        Convert(NedF, NedF, EnuF, Nowhere);
      } else if EcefF in posStatus {
        Convert(EcefF, EcefF, EnuF, Ltp(nedOriginF));
      } else if EcefI in posStatus {
        Convert(EcefI, EcefI, EnuI, Ltp(nedOrigin));
        SetBit(EnuI);
        Convert(EnuI, EnuI, EnuF, Nowhere);
      } else if LlaF in posStatus {
        Convert(LlaF, LlaF, EnuF, Ltp(nedOriginF));
      } else if LlaI in posStatus {
        Convert(LlaI, LlaI, EcefI, Nowhere);
        SetBit(EcefI);
        Convert(EcefI, EcefI, EnuI, Ltp(nedOrigin));
        SetBit(EnuI);
        Convert(EnuI, EnuI, EnuF, Nowhere);
      }
    }

    method CalcEnuFByUtm()
      modifies this`posStatus, this`ecefPosI, this`nedPosI, this`enuPosI, this`llaPosI
      modifies this`ecefPosF, this`nedPosF, this`enuPosF, this`llaPosF, this`utmPosF
      ensures View() == Apply(world, old(View()), EnuFByUtm(old(View())))
    {
      ViewFields();
      hide Store, Mark, View, Has;
      if EnuI in posStatus {
        Convert(EnuI, EnuI, EnuF, Nowhere);
      } else if NedF in posStatus {
        Convert(NedF, NedF, EnuF, Nowhere);
      } else if NedI in posStatus {
        Convert(NedI, NedI, NedF, Nowhere);
        SetBit(NedF);
        Convert(NedF, NedF, EnuF, Nowhere);
      } else if UtmF in posStatus {
        Convert(UtmF, UtmF, EnuF, Utm(utmOrigin, utmOriginZone));
      } else if LlaF in posStatus {
        Convert(LlaF, LlaF, UtmF, Zone(utmPosZone));
        SetBit(UtmF);
        Convert(UtmF, UtmF, EnuF, Utm(utmOrigin, utmOriginZone));
      } else if LlaI in posStatus {
        Convert(LlaI, LlaI, LlaF, Nowhere);
        SetBit(LlaF);
        Convert(LlaF, LlaF, UtmF, Zone(utmPosZone));
        SetBit(UtmF);
        Convert(UtmF, UtmF, EnuF, Utm(utmOrigin, utmOriginZone));
      }
    }

    method CalcPositionEnuF()
      modifies this`posStatus, this`ecefPosI, this`nedPosI, this`enuPosI, this`llaPosI
      modifies this`ecefPosF, this`nedPosF, this`enuPosF, this`llaPosF, this`utmPosF
      ensures View() == Calc(world, old(View()), EnuF)
    {
      hide Put, Mark, Value, EnuFByLtp, EnuFByUtm;
      if EnuF in posStatus {
        return;
      }
      if nedInitializedF {
        CalcEnuFByLtp();
      } else if utmInitializedF {
        CalcEnuFByUtm();
      }
      SetBit(EnuF);
    }

    method CalcPositionLlaF()
      modifies this`posStatus, this`ecefPosI, this`nedPosI, this`enuPosI, this`llaPosI
      modifies this`ecefPosF, this`nedPosF, this`enuPosF, this`llaPosF, this`utmPosF
      ensures View() == Calc(world, old(View()), LlaF)
    {
      ViewFields();
      hide Store, Mark, View, Has;
      if LlaF in posStatus {
        return;
      }
      if LlaI in posStatus {
        Convert(LlaF, LlaI, LlaF, Nowhere);
      } else if EcefF in posStatus {
        Convert(EcefF, EcefF, LlaF, Nowhere);
      } else if EcefI in posStatus {
        Convert(EcefI, EcefI, EcefF, Nowhere);
        SetBit(EcefF);
        Convert(EcefF, EcefF, LlaF, Nowhere);
      } else if NedF in posStatus {
        Convert(NedF, NedF, EcefF, Ltp(nedOriginF));
        SetBit(EcefF);
        Convert(EcefF, EcefF, LlaF, Nowhere);
      } else if NedI in posStatus {
        Convert(NedI, NedI, NedF, Nowhere);
        SetBit(NedF);
        Convert(NedF, NedF, EcefF, Ltp(nedOriginF));
        SetBit(EcefF);
        Convert(EcefF, EcefF, LlaF, Nowhere);
      } else if UtmF in posStatus {
        Convert(UtmF, UtmF, LlaF, Zone(utmPosZone));
      }
      SetBit(LlaF);
    }

    /** The stateGetPosition functions: fill in the representation if need be and return it. */
    method GetPosition(r: Rep) returns (v: V)
      modifies this`posStatus, this`ecefPosI, this`nedPosI, this`enuPosI, this`llaPosI
      modifies this`ecefPosF, this`nedPosF, this`enuPosF, this`llaPosF, this`utmPosF
      ensures View() == Calc(world, old(View()), r) && v == Value(View(), r)
    {
      hide Calc, Value;
      match r {
        case EcefI => CalcPositionEcefI();
        case NedI => CalcPositionNedI();
        case EnuI => CalcPositionEnuI();
        case LlaI => CalcPositionLlaI();
        case EcefF => CalcPositionEcefF();
        case NedF => CalcPositionNedF();
        case EnuF => CalcPositionEnuF();
        case LlaF => CalcPositionLlaF();
        case UtmF => CalcPositionUtmF();
      }
      v := Value(View(), r);
    }

    /** The stateSetPosition functions of one argument; `zone` comes with a UTM position. */
    method SetPosition(r: Rep, v: V, zone: uint8)
      modifies this`posStatus, this`ecefPosI, this`nedPosI, this`enuPosI, this`llaPosI
      modifies this`ecefPosF, this`nedPosF, this`enuPosF, this`llaPosF, this`utmPosF, this`utmPosZone
      ensures View() == Set(old(View()), r, v, zone)
    {
      Write(r, v);
      if r == UtmF {
        utmPosZone := zone;
      }
      posStatus := {r};
    }

    method SetLocalOrigin(origin: O)
      modifies this`nedOrigin, this`nedOriginF, this`nedInitializedI, this`nedInitializedF, this`posStatus
      ensures View() == MoveOrigin(world, old(View()), origin)
    {
      nedOrigin := origin;
      nedOriginF := world.floatPlane(origin);
      posStatus := posStatus - {NedI, NedF, EnuI, EnuF};
      nedInitializedI, nedInitializedF := true, true;
    }

    method SetLocalUtmOrigin(origin: O, zone: uint8)
      modifies this`utmOrigin, this`utmOriginZone, this`utmInitializedF, this`posStatus
      ensures View() == MoveUtmOrigin(old(View()), origin, zone)
    {
      utmOrigin, utmOriginZone := origin, zone;
      utmInitializedF := true;
      posStatus := posStatus - {NedI, NedF, EnuI, EnuF};
    }
  }

  // ---------- What the values denote ----------

  /** Whether a conversion keeps the place, handed `handed` while the frames are `fr`. Between
      local and global coordinates it does so only if it is handed the frame the local ones are
      relative to; a UTM position can only be taken from an origin in its own zone. The two integer
      conversions from LLA to a tangent plane never do: they give centimetres where the cache holds
      metres with eight fractional bits. */
  ghost predicate Sound<O>(from: Rep, to: Rep, handed: Origin<O>, fr: Frames<O>) {
    var frame := LocalFrame(fr);
    if Local(from) == Local(to) then
      Local(from) || (from != UtmF && to != UtmF) || handed == Zone(fr.zone)
    else if handed != frame then
      false
    else if frame.Ltp? then
      from != UtmF && to != UtmF && !(from == LlaI && (to == NedI || to == EnuI))
    else
      frame.Utm? && from == UtmF && frame.zone == fr.zone
  }

  /** Local coordinates are relative to a proper tangent plane, or to none. */
  predicate OnProperPlane<V, O, P>(w: World<V, O, P>, fr: Frames<O>) {
    fr.nedInitializedI ==> w.proper(fr.nedOrigin)
  }

  /** While local coordinates are relative to no improper plane, every sound conversion keeps the
      place. Nothing is asked of conversions through the derived plane, or one never set. */
  ghost predicate Faithful<V(!new), O(!new), P(!new)>(w: World<V, O, P>) {
    forall from, to, handed, fr, v {:trigger w.point(to, RelativeTo(fr, to), w.convert(from, to, handed, v))} ::
      OnProperPlane(w, fr) && Sound(from, to, handed, fr) ==>
        w.point(to, RelativeTo(fr, to), w.convert(from, to, handed, v)) == w.point(from, RelativeTo(fr, from), v)
  }

  ghost predicate Reliable<V(!new), O(!new), P(!new)>(w: World<V, O, P>, fr: Frames<O>) {
    Faithful(w) && OnProperPlane(w, fr)
  }

  ghost function At<V, O, P>(w: World<V, O, P>, c: Cache<V, O>, r: Rep): P {
    w.point(r, RelativeTo(c.frames, r), Value(c, r))
  }

  /** All representations in `known` are of the place `p`. */
  ghost predicate Agree<V, O, P>(w: World<V, O, P>, c: Cache<V, O>, known: set<Rep>, p: P) {
    forall r :: r in known ==> At(w, c, r) == p
  }

  /** Every marked representation is of the place `p`. */
  ghost predicate Denotes<V, O, P>(w: World<V, O, P>, c: Cache<V, O>, p: P) {
    Agree(w, c, c.status, p)
  }

  // ---------- Following a path ----------

  /** The hop reads the representation it converts from, and soundly. */
  ghost predicate Keeps<O>(h: Hop<O>, fr: Frames<O>) {
    h.read == h.from && Sound(h.from, h.to, h.frame, fr)
  }

  ghost predicate Good<O>(h: Hop<O>, known: set<Rep>, fr: Frames<O>) {
    Keeps(h, fr) && h.read in known
  }

  /** The place where the value that the hop stores lands. */
  ghost function Landing<V, O, P>(w: World<V, O, P>, c: Cache<V, O>, h: Hop<O>): P {
    w.point(h.to, RelativeTo(c.frames, h.to), w.convert(h.from, h.to, h.frame, Value(c, h.read)))
  }

  lemma ValueOfPut<V, O>(c: Cache<V, O>, r: Rep, v: V, k: Rep)
    ensures Value(Put(c, r, v), k) == if k == r then v else Value(c, k)
    ensures Put(c, r, v).frames == c.frames && Put(c, r, v).status == c.status
  {
  }

  lemma ValueOfMark<V, O>(c: Cache<V, O>, m: Rep, r: Rep)
    ensures Value(Mark(c, m), r) == Value(c, r)
  {
  }

  /** The hop changes one place, and its mark none. */
  lemma HopPlaces<V, O, P>(w: World<V, O, P>, c: Cache<V, O>, h: Hop<O>, r: Rep)
    ensures At(w, Store(w, c, h), r) == if r == h.to then Landing(w, c, h) else At(w, c, r)
    ensures At(w, Take(w, c, h), r) == At(w, Store(w, c, h), r)
    ensures Store(w, c, h).frames == Take(w, c, h).frames == c.frames
    ensures Store(w, c, h).status == c.status && Take(w, c, h).status == c.status + {h.mark}
  {
    ValueOfPut(c, h.to, w.convert(h.from, h.to, h.frame, Value(c, h.read)), r);
    ValueOfMark(Store(w, c, h), h.mark, r);
    hide Put, Value, RelativeTo;
  }

  lemma KeepingHopLands<V(!new), O(!new), P(!new)>(w: World<V, O, P>, c: Cache<V, O>, h: Hop<O>)
    requires Reliable(w, c.frames) && Keeps(h, c.frames)
    ensures Landing(w, c, h) == At(w, c, h.read)
  {
    hide Sound, Value, RelativeTo;
  }

  /** The representations in `known` still agree, joined by the target of a good hop. */
  lemma StoreAgrees<V(!new), O(!new), P(!new)>(w: World<V, O, P>, c: Cache<V, O>, h: Hop<O>, known: set<Rep>, p: P)
    requires Reliable(w, c.frames) && Agree(w, c, known, p) && Good(h, known, c.frames)
    ensures Agree(w, Store(w, c, h), known + {h.to}, p) && Agree(w, Take(w, c, h), known + {h.to}, p)
    ensures Store(w, c, h).frames == Take(w, c, h).frames == c.frames
  {
    KeepingHopLands(w, c, h);
    hide Reliable, Keeps, Store, Take, Landing, At;
    assert Landing(w, c, h) == p;
    HopPlaces(w, c, h, h.to);
    forall r | r in known + {h.to}
      ensures At(w, Store(w, c, h), r) == p && At(w, Take(w, c, h), r) == p
    {
      HopPlaces(w, c, h, r);
    }
  }

  /** And so do they if a hop lands elsewhere. */
  lemma StoreElsewhere<V, O, P>(w: World<V, O, P>, c: Cache<V, O>, h: Hop<O>, known: set<Rep>, p: P)
    requires Agree(w, c, known, p) && h.to !in known
    ensures Agree(w, Store(w, c, h), known, p) && Agree(w, Take(w, c, h), known, p)
    ensures Agree(w, Store(w, c, h), {h.to}, Landing(w, c, h)) && Agree(w, Take(w, c, h), {h.to}, Landing(w, c, h))
    ensures Store(w, c, h).frames == Take(w, c, h).frames == c.frames
  {
    hide Store, Take, Landing, At;
    HopPlaces(w, c, h, h.to);
    forall r | r in known
      ensures At(w, Store(w, c, h), r) == p && At(w, Take(w, c, h), r) == p
    {
      HopPlaces(w, c, h, r);
    }
  }

  /** What a path leaves known, starting from what is marked. */
  function Reached<O>(known: set<Rep>, path: Path<O>): set<Rep> {
    match path
    case NoSource => known
    case One(h1) => known + {h1.to}
    case Two(h1, h2) => known + {h1.to} + {h2.to}
    case Three(h1, h2, h3) => known + {h1.to} + {h2.to} + {h3.to}
    case Four(h1, h2, h3, h4) => known + {h1.to} + {h2.to} + {h3.to} + {h4.to}
  }

  /** Every hop is good and reads something known by then. */
  ghost predicate Grounded<O>(known: set<Rep>, path: Path<O>, fr: Frames<O>) {
    match path
    case NoSource => true
    case One(h1) => Good(h1, known, fr)
    case Two(h1, h2) => Good(h1, known, fr) && Good(h2, known + {h1.to}, fr)
    case Three(h1, h2, h3) =>
      Good(h1, known, fr) && Good(h2, known + {h1.to}, fr) && Good(h3, known + {h1.to} + {h2.to}, fr)
    case Four(h1, h2, h3, h4) =>
      && Good(h1, known, fr) && Good(h2, known + {h1.to}, fr)
      && Good(h3, known + {h1.to} + {h2.to}, fr) && Good(h4, known + {h1.to} + {h2.to} + {h3.to}, fr)
  }

  lemma ApplyAgrees<V(!new), O(!new), P(!new)>(w: World<V, O, P>, c: Cache<V, O>, path: Path<O>,
      k: set<Rep>, p: P)
    requires Reliable(w, c.frames) && Agree(w, c, k, p) && Grounded(k, path, c.frames)
    ensures Agree(w, Apply(w, c, path), Reached(k, path), p)
    ensures Apply(w, c, path).frames == c.frames
  {
    hide Reliable, Agree, Good, Take, Store;
    match path
    case NoSource =>
    case One(h1) =>
      StoreAgrees(w, c, h1, k, p);
    case Two(h1, h2) =>
      StoreAgrees(w, c, h1, k, p);
      StoreAgrees(w, Take(w, c, h1), h2, k + {h1.to}, p);
    case Three(h1, h2, h3) =>
      StoreAgrees(w, c, h1, k, p);
      StoreAgrees(w, Take(w, c, h1), h2, k + {h1.to}, p);
      StoreAgrees(w, Take(w, Take(w, c, h1), h2), h3, k + {h1.to} + {h2.to}, p);
    case Four(h1, h2, h3, h4) =>
      StoreAgrees(w, c, h1, k, p);
      StoreAgrees(w, Take(w, c, h1), h2, k + {h1.to}, p);
      StoreAgrees(w, Take(w, Take(w, c, h1), h2), h3, k + {h1.to} + {h2.to}, p);
      StoreAgrees(w, Take(w, Take(w, Take(w, c, h1), h2), h3), h4, k + {h1.to} + {h2.to} + {h3.to}, p);
  }

  /** What a path marks, counting the target that its getter marks at the end. */
  function Marked<O>(known: set<Rep>, path: Path<O>, target: Rep): set<Rep> {
    match path
    case NoSource => known + {target}
    case One(h1) => known + {target}
    case Two(h1, h2) => known + {h1.mark, target}
    case Three(h1, h2, h3) => known + {h1.mark, h2.mark, target}
    case Four(h1, h2, h3, h4) => known + {h1.mark, h2.mark, h3.mark, target}
  }

  lemma StatusOfApply<V, O, P>(w: World<V, O, P>, c: Cache<V, O>, path: Path<O>, target: Rep)
    ensures Mark(Apply(w, c, path), target).status == Marked(c.status, path, target)
    ensures Mark(Apply(w, c, path), target).frames == c.frames
  {
    hide Store, Take, At;
    match path
    case NoSource =>
    case One(h1) => HopPlaces(w, c, h1, target);
    case Two(h1, h2) =>
      HopPlaces(w, c, h1, target);
      HopPlaces(w, Take(w, c, h1), h2, target);
    case Three(h1, h2, h3) =>
      HopPlaces(w, c, h1, target);
      HopPlaces(w, Take(w, c, h1), h2, target);
      HopPlaces(w, Take(w, Take(w, c, h1), h2), h3, target);
    case Four(h1, h2, h3, h4) =>
      HopPlaces(w, c, h1, target);
      HopPlaces(w, Take(w, c, h1), h2, target);
      HopPlaces(w, Take(w, Take(w, c, h1), h2), h3, target);
      HopPlaces(w, Take(w, Take(w, Take(w, c, h1), h2), h3), h4, target);
  }

  // ---------- When a getter gives the right place ----------

  /** The float tangent plane is the integer one. As the code derives it, it is 64 times as large
      (FloatPlane.EnuIs64Times). */
  ghost predicate SamePlane<V, O>(c: Cache<V, O>) {
    c.frames.nedOriginF == c.frames.nedOrigin
  }

  /** The zone that UTM positions are taken in is that of the UTM origin. */
  predicate SameZone<V, O>(c: Cache<V, O>) {
    c.frames.zone == c.frames.utmOriginZone
  }

  /** Some representation gives sound conversions only, and the getter of `t` chooses it. */
  ghost predicate Sourced<V, O>(c: Cache<V, O>, t: Rep) {
    var plane := c.frames.nedInitializedI;
    var planeF := plane && SamePlane(c);
    var ecef := Has(c, EcefI) || Has(c, EcefF);
    Has(c, t) ||
    match t
    case EcefI =>
      Has(c, EcefF) || if Has(c, NedI) then plane else if Has(c, NedF) then planeF else Has(c, LlaF) || Has(c, LlaI)
    case EcefF =>
      Has(c, EcefI) || if Has(c, NedF) then planeF else if Has(c, NedI) then plane else Has(c, LlaF) || Has(c, LlaI)
    case LlaI =>
      Has(c, LlaF) || ecef || if Has(c, NedF) then planeF else if Has(c, NedI) then plane else Has(c, UtmF)
    case LlaF =>
      !Has(c, LlaI) && (ecef || if Has(c, NedF) || Has(c, NedI) then planeF else Has(c, UtmF))
    case UtmF =>
      Has(c, LlaF) || Has(c, LlaI)
    case _ =>
      if plane then SourcedByLtp(c, t) else c.frames.utmInitializedF && SourcedByUtm(c)
  }

  /** For a local target: what helps when the frame is a local tangent plane. */
  ghost predicate SourcedByLtp<V, O>(c: Cache<V, O>, t: Rep) {
    var ned := Has(c, NedI) || Has(c, NedF);
    var global := Has(c, EcefI) || (SamePlane(c) && (Has(c, EcefF) || Has(c, LlaF)));
    var globalF :=
      if Has(c, EcefF) then SamePlane(c)
      else Has(c, EcefI) || if Has(c, LlaF) then SamePlane(c) else Has(c, LlaI);
    match t
    case NedI => ned || Has(c, EnuI) || Has(c, EnuF) || global
    case EnuI => ned || Has(c, EnuF) || global
    case NedF => ned || globalF
    case _ => ned || Has(c, EnuI) || globalF
  }

  /** For a local target: what helps when the frame is a UTM zone. */
  predicate SourcedByUtm<V, O>(c: Cache<V, O>) {
    || Has(c, NedI) || Has(c, NedF) || Has(c, EnuI) || Has(c, EnuF)
    || (SameZone(c) && (Has(c, UtmF) || Has(c, LlaF) || Has(c, LlaI)))
  }

  /** The getter of `t` looks at no marked representation at all. */
  predicate Blank<V, O>(c: Cache<V, O>, t: Rep) {
    var ned := Has(c, NedI) || Has(c, NedF);
    var enu := Has(c, EnuI) || Has(c, EnuF);
    var ecef := Has(c, EcefI) || Has(c, EcefF);
    var lla := Has(c, LlaI) || Has(c, LlaF);
    !Has(c, t) &&
    match t
    case EcefI => !ecef && !ned && !lla
    case EcefF => !ecef && !ned && !lla
    case LlaI => !lla && !ecef && !ned && !Has(c, UtmF)
    case LlaF => !lla && !ecef && !ned && !Has(c, UtmF)
    case UtmF => !lla
    case NedF =>
      if c.frames.nedInitializedF then !ned && !ecef && !lla
      else c.frames.utmInitializedF ==> !ned && !enu && !Has(c, UtmF) && !lla
    case _ =>
      if c.frames.nedInitializedI then !ned && !enu && !ecef && !lla
      else c.frames.utmInitializedF ==> !ned && !enu && !Has(c, UtmF) && !lla
  }

  ghost predicate WellSourced<V, O>(c: Cache<V, O>, t: Rep) {
    var path := PathOf(c, t);
    path != NoSource && Grounded(c.status, path, c.frames) && Marked(c.status, path, t) <= Reached(c.status, path)
  }

  lemma SourcedGlobalIff<V, O>(c: Cache<V, O>, t: Rep)
    requires Valid(c) && !Has(c, t) && !Local(t)
    ensures Sourced(c, t) <==> WellSourced(c, t)
    ensures Blank(c, t) <==> PathOf(c, t) == NoSource
  {
    hide SourcedByLtp, SourcedByUtm, PathNedI, PathEnuI, PathNedF, PathEnuF;
  }

  lemma SourcedIntIff<V, O>(c: Cache<V, O>, t: Rep)
    requires Valid(c) && !Has(c, t) && (t == NedI || t == EnuI)
    ensures Sourced(c, t) <==> WellSourced(c, t)
    ensures Blank(c, t) <==> PathOf(c, t) == NoSource
  {
    hide PathEcefI, PathEcefF, PathLlaI, PathLlaF, PathUtmF, PathNedF, PathEnuF;
  }

  lemma SourcedFloatIff<V, O>(c: Cache<V, O>, t: Rep)
    requires Valid(c) && !Has(c, t) && (t == NedF || t == EnuF)
    ensures Sourced(c, t) <==> WellSourced(c, t)
    ensures Blank(c, t) <==> PathOf(c, t) == NoSource
  {
    hide PathEcefI, PathEcefF, PathLlaI, PathLlaF, PathUtmF, PathNedI, PathEnuI;
  }

  /** The table of `Sourced` is right: it tells exactly when the chain of conditions ends in
      conversions that keep the place, and `Blank` when it ends in none. */
  lemma SourcedIff<V, O>(c: Cache<V, O>, t: Rep)
    requires Valid(c) && !Has(c, t)
    ensures Sourced(c, t) <==> WellSourced(c, t)
    ensures Blank(c, t) <==> PathOf(c, t) == NoSource
  {
    hide Sourced, WellSourced, Blank, PathOf, Valid;
    if !Local(t) {
      SourcedGlobalIff(c, t);
    } else if t == NedI || t == EnuI {
      SourcedIntIff(c, t);
    } else {
      SourcedFloatIff(c, t);
    }
  }

  lemma MarkAgrees<V(!new), O(!new), P(!new)>(w: World<V, O, P>, c: Cache<V, O>, known: set<Rep>, t: Rep, p: P)
    requires Agree(w, c, known, p) && Mark(c, t).status <= known
    ensures Denotes(w, Mark(c, t), p)
  {
    hide Value, RelativeTo;
    forall r | r in Mark(c, t).status
      ensures At(w, Mark(c, t), r) == p
    {
      assert At(w, c, r) == p;
      MarkKeepsPlaces(w, c, t, r);
    }
  }

  lemma MarkKeepsPlaces<V, O, P>(w: World<V, O, P>, c: Cache<V, O>, t: Rep, r: Rep)
    ensures At(w, Mark(c, t), r) == At(w, c, r)
  {
  }

  /** A getter with a source leaves every marked representation on the place. */
  lemma SourcedGetterDenotes<V(!new), O(!new), P(!new)>(w: World<V, O, P>, c: Cache<V, O>, t: Rep, p: P)
    requires Reliable(w, c.frames) && Valid(c) && Denotes(w, c, p) && Sourced(c, t)
    ensures Denotes(w, Calc(w, c, t), p)
  {
    if !Has(c, t) {
      SourcedIff(c, t);
      hide Reliable, Valid, Sourced, PathOf, Apply, Agree, Marked, Reached, Mark, Grounded;
      var path := PathOf(c, t);
      ApplyAgrees(w, c, path, c.status, p);
      StatusOfApply(w, c, path, t);
      MarkAgrees(w, Apply(w, c, path), Reached(c.status, path), t, p);
    }
  }

  // ---------- Marked representations are not rewritten ----------

  /** `target` is marked, and nothing that was marked changed, nor did the frames. */
  ghost predicate Extends<V, O>(c: Cache<V, O>, c': Cache<V, O>, target: Rep) {
    && c.status <= c'.status && target in c'.status
    && Kept(c, c')
  }

  ghost predicate Kept<V, O>(c: Cache<V, O>, c': Cache<V, O>) {
    && (forall r :: r in c.status ==> Value(c', r) == Value(c, r))
    && c'.frames == c.frames
  }

  /** The one case in which a getter overwrites a marked representation: NED float in a UTM
      frame, with both ENU representations marked and no NED one. */
  predicate RewritesEnu<V, O>(c: Cache<V, O>, t: Rep) {
    && t == NedF && !Has(c, NedF) && !Has(c, NedI) && Has(c, EnuI) && Has(c, EnuF)
    && !c.frames.nedInitializedF && c.frames.utmInitializedF
  }

  /** No hop lands on a marked representation. */
  predicate Fresh<O>(known: set<Rep>, path: Path<O>) {
    match path
    case NoSource => true
    case One(h1) => h1.to !in known
    case Two(h1, h2) => h1.to !in known && h2.to !in known
    case Three(h1, h2, h3) => h1.to !in known && h2.to !in known && h3.to !in known
    case Four(h1, h2, h3, h4) => h1.to !in known && h2.to !in known && h3.to !in known && h4.to !in known
  }

  lemma PathIsFresh<V, O>(c: Cache<V, O>, t: Rep)
    requires Valid(c) && !Has(c, t)
    ensures Fresh(c.status, PathOf(c, t)) <==> !RewritesEnu(c, t)
  {
    if Local(t) {
      hide PathEcefI, PathEcefF, PathLlaI, PathLlaF, PathUtmF;
    } else {
      hide PathNedI, PathNedF, PathEnuI, PathEnuF;
    }
  }

  lemma StoreKeeps<V, O, P>(w: World<V, O, P>, c0: Cache<V, O>, c: Cache<V, O>, h: Hop<O>)
    requires Kept(c0, c) && h.to !in c0.status
    ensures Kept(c0, Store(w, c, h)) && Kept(c0, Take(w, c, h))
  {
    var v := w.convert(h.from, h.to, h.frame, Value(c, h.read));
    ValueOfPut(c, h.to, v, h.to);
    hide Put, Value;
    forall r | r in c0.status
      ensures Value(Store(w, c, h), r) == Value(c0, r) && Value(Take(w, c, h), r) == Value(c0, r)
    {
      ValueOfPut(c, h.to, v, r);
      ValueOfMark(Store(w, c, h), h.mark, r);
    }
  }

  lemma ApplyKeeps<V, O, P>(w: World<V, O, P>, c: Cache<V, O>, path: Path<O>)
    requires Fresh(c.status, path)
    ensures Kept(c, Apply(w, c, path))
  {
    assert Kept(c, c);
    hide Kept, Store, Take;
    match path
    case NoSource =>
    case One(h1) => StoreKeeps(w, c, c, h1);
    case Two(h1, h2) =>
      StoreKeeps(w, c, c, h1);
      StoreKeeps(w, c, Take(w, c, h1), h2);
    case Three(h1, h2, h3) =>
      StoreKeeps(w, c, c, h1);
      StoreKeeps(w, c, Take(w, c, h1), h2);
      StoreKeeps(w, c, Take(w, Take(w, c, h1), h2), h3);
    case Four(h1, h2, h3, h4) =>
      StoreKeeps(w, c, c, h1);
      StoreKeeps(w, c, Take(w, c, h1), h2);
      StoreKeeps(w, c, Take(w, Take(w, c, h1), h2), h3);
      StoreKeeps(w, c, Take(w, Take(w, Take(w, c, h1), h2), h3), h4);
  }

  lemma MarkKeepsKept<V, O>(c: Cache<V, O>, c': Cache<V, O>, m: Rep)
    requires Kept(c, c')
    ensures Kept(c, Mark(c', m))
  {
    hide Value;
    forall r | r in c.status
      ensures Value(Mark(c', m), r) == Value(c, r)
    {
      ValueOfMark(c', m, r);
    }
  }

  /** A getter only adds to what is marked, except in the one case named. */
  lemma GetterExtends<V, O, P>(w: World<V, O, P>, c: Cache<V, O>, t: Rep)
    requires Valid(c) && !RewritesEnu(c, t)
    ensures Extends(c, Calc(w, c, t), t)
  {
    if !Has(c, t) {
      PathIsFresh(c, t);
      hide Fresh, PathOf, Apply, Kept, Mark, RewritesEnu, Valid;
      ApplyKeeps(w, c, PathOf(c, t));
      MarkKeepsKept(c, Apply(w, c, PathOf(c, t)), t);
      StatusOfApply(w, c, PathOf(c, t), t);
    }
  }

  /** In that case the float ENU value is replaced by the converted integer one. */
  lemma RewritingGetterExtendsIff<V, O, P>(w: World<V, O, P>, c: Cache<V, O>)
    requires RewritesEnu(c, NedF)
    ensures Value(Calc(w, c, NedF), EnuF) == w.convert(EnuI, EnuF, Nowhere, c.enuI)
    ensures Extends(c, Calc(w, c, NedF), NedF) <==> w.convert(EnuI, EnuF, Nowhere, c.enuI) == c.enuF
  {
    assert PathOf(c, NedF) == Two(Via(EnuI, EnuF, Nowhere), Via(EnuF, NedF, Nowhere));
    assert EnuF in c.status;
  }

  // ---------- A path with one conversion that does not keep the place ----------

  function First<O>(path: Path<O>): Hop<O>
    requires path != NoSource
  {
    path.h1
  }

  function Tail<O>(path: Path<O>): Path<O> {
    match path
    case NoSource => NoSource
    case One(h1) => NoSource
    case Two(h1, h2) => One(h2)
    case Three(h1, h2, h3) => Two(h2, h3)
    case Four(h1, h2, h3, h4) => Three(h2, h3, h4)
  }

  function Length<O>(path: Path<O>): nat {
    match path
    case NoSource => 0
    case One(h1) => 1
    case Two(h1, h2) => 2
    case Three(h1, h2, h3) => 3
    case Four(h1, h2, h3, h4) => 4
  }

  function Targets<O>(path: Path<O>): set<Rep> {
    Reached({}, path)
  }

  /** Each hop reads what the one before stored, and no two store the same. */
  predicate Linked<O>(path: Path<O>) {
    match path
    case NoSource => true
    case One(h1) => true
    case Two(h1, h2) => h2.read == h1.to && h1.to != h2.to
    case Three(h1, h2, h3) =>
      h2.read == h1.to && h3.read == h2.to && h1.to != h2.to && h1.to != h3.to && h2.to != h3.to
    case Four(h1, h2, h3, h4) =>
      && h2.read == h1.to && h3.read == h2.to && h4.read == h3.to
      && h1.to != h2.to && h1.to != h3.to && h1.to != h4.to
      && h2.to != h3.to && h2.to != h4.to && h3.to != h4.to
  }

  ghost predicate AllKeep<O>(path: Path<O>, fr: Frames<O>) {
    match path
    case NoSource => true
    case One(h1) => Keeps(h1, fr)
    case Two(h1, h2) => Keeps(h1, fr) && Keeps(h2, fr)
    case Three(h1, h2, h3) => Keeps(h1, fr) && Keeps(h2, fr) && Keeps(h3, fr)
    case Four(h1, h2, h3, h4) => Keeps(h1, fr) && Keeps(h2, fr) && Keeps(h3, fr) && Keeps(h4, fr)
  }

  /** All hops but one keep the place. */
  ghost predicate OneStrays<O>(path: Path<O>, fr: Frames<O>) {
    match path
    case NoSource => false
    case One(h1) => !Keeps(h1, fr)
    case Two(h1, h2) => if Keeps(h1, fr) then !Keeps(h2, fr) else Keeps(h2, fr)
    case Three(h1, h2, h3) =>
      if Keeps(h1, fr) then (if Keeps(h2, fr) then !Keeps(h3, fr) else Keeps(h3, fr))
      else Keeps(h2, fr) && Keeps(h3, fr)
    case Four(h1, h2, h3, h4) =>
      if Keeps(h1, fr) then
        if Keeps(h2, fr) then (if Keeps(h3, fr) then !Keeps(h4, fr) else Keeps(h4, fr))
        else Keeps(h3, fr) && Keeps(h4, fr)
      else Keeps(h2, fr) && Keeps(h3, fr) && Keeps(h4, fr)
  }

  /** Where that one lands. */
  ghost function StrayLanding<V, O, P>(w: World<V, O, P>, c: Cache<V, O>, path: Path<O>): P
    requires path != NoSource
  {
    match path
    case One(h1) => Landing(w, c, h1)
    case Two(h1, h2) => if Keeps(h1, c.frames) then Landing(w, Take(w, c, h1), h2) else Landing(w, c, h1)
    case Three(h1, h2, h3) =>
      if !Keeps(h1, c.frames) then Landing(w, c, h1)
      else if !Keeps(h2, c.frames) then Landing(w, Take(w, c, h1), h2)
      else Landing(w, Take(w, Take(w, c, h1), h2), h3)
    case Four(h1, h2, h3, h4) =>
      if !Keeps(h1, c.frames) then Landing(w, c, h1)
      else if !Keeps(h2, c.frames) then Landing(w, Take(w, c, h1), h2)
      else if !Keeps(h3, c.frames) then Landing(w, Take(w, Take(w, c, h1), h2), h3)
      else Landing(w, Take(w, Take(w, Take(w, c, h1), h2), h3), h4)
  }

  function Last<O>(path: Path<O>): Hop<O>
    requires path != NoSource
  {
    match path
    case One(h1) => h1
    case Two(h1, h2) => h2
    case Three(h1, h2, h3) => h3
    case Four(h1, h2, h3, h4) => h4
  }

  lemma AfterFirst<V, O, P>(w: World<V, O, P>, c: Cache<V, O>, path: Path<O>, fr: Frames<O>)
    requires Length(path) > 1
    ensures var h := First(path); var c' := Take(w, c, h);
      && Length(Tail(path)) == Length(path) - 1
      && Apply(w, c, path) == Apply(w, c', Tail(path)) && Last(path) == Last(Tail(path))
      && Targets(path) == {h.to} + Targets(Tail(path))
      && (Linked(path) ==> Linked(Tail(path)) && First(Tail(path)).read == h.to && h.to !in Targets(Tail(path)))
      && (AllKeep(path, fr) ==> Keeps(h, fr) && AllKeep(Tail(path), fr))
      && (OneStrays(path, fr) ==> if Keeps(h, fr) then OneStrays(Tail(path), fr) else AllKeep(Tail(path), fr))
      && (c'.frames == c.frames ==>
            StrayLanding(w, c, path)
            == if Keeps(h, c.frames) then StrayLanding(w, c', Tail(path)) else Landing(w, c, h))
  {
    hide Take, Store, Keeps, Landing;
  }

  /** Hops that keep the place, from something of the place `q`: all they store is of `q`, and what
      is known to be of `p` stays so. */
  lemma {:induction false} KeepersFollow<V(!new), O(!new), P(!new)>(w: World<V, O, P>, c: Cache<V, O>, path: Path<O>,
      known: set<Rep>, p: P, landed: set<Rep>, q: P)
    requires Reliable(w, c.frames) && Agree(w, c, known, p) && Agree(w, c, landed, q)
    requires path != NoSource && Linked(path) && AllKeep(path, c.frames)
    requires First(path).read in landed && Targets(path) !! known
    ensures Agree(w, Apply(w, c, path), known, p)
    ensures Agree(w, Apply(w, c, path), landed + Targets(path), q)
    ensures Apply(w, c, path).frames == c.frames
    decreases Length(path)
  {
    var h := First(path);
    assert h.to in Targets(path);
    assert Length(path) == 1 ==> Targets(path) == {h.to} && Apply(w, c, path) == Store(w, c, h);
    assert Keeps(h, c.frames);
    if Length(path) > 1 {
      AfterFirst(w, c, path, c.frames);
    }
    hide Reliable, Agree, Keeps, Take, Store, AllKeep, Linked, Targets, Apply, First, Tail, Landing;
    StoreElsewhere(w, c, h, known, p);
    StoreAgrees(w, c, h, landed, q);
    if Length(path) > 1 {
      KeepersFollow(w, Take(w, c, h), Tail(path), known, p, landed + {h.to}, q);
      assert landed + {h.to} + Targets(Tail(path)) == landed + Targets(path);
    }
  }

  /** Everything known stays of `p`; what the path stores is of `p` before the stray hop, and from
      there on of the place where that one lands. */
  lemma {:induction false} StrayPathLands<V(!new), O(!new), P(!new)>(w: World<V, O, P>, c: Cache<V, O>, path: Path<O>,
      known: set<Rep>, p: P)
    requires Reliable(w, c.frames) && Agree(w, c, known, p)
    requires path != NoSource && Linked(path) && OneStrays(path, c.frames)
    requires (First(path).read in known || !Keeps(First(path), c.frames)) && Targets(path) !! known
    ensures var c', q := Apply(w, c, path), StrayLanding(w, c, path);
      && Agree(w, c', known, p) && At(w, c', Last(path).to) == q
      && (forall r :: r in Targets(path) ==> At(w, c', r) == p || At(w, c', r) == q)
      && c'.frames == c.frames
    decreases Length(path)
  {
    var h, fr := First(path), c.frames;
    assert h.to in Targets(path);
    if Length(path) == 1 {
      StoreElsewhere(w, c, h, known, p);
      assert path == One(h) && Targets(path) == {h.to};
    } else {
      AfterFirst(w, c, path, fr);
      LastIsTarget(Tail(path));
      hide Reliable, Agree, Take, Store, AllKeep, OneStrays, Linked, Targets, Apply, First, Tail, Landing,
        StrayLanding, Keeps, At, Last;
      StoreElsewhere(w, c, h, known, p);
      if Keeps(h, fr) {
        StoreAgrees(w, c, h, known, p);
        StrayPathLands(w, Take(w, c, h), Tail(path), known + {h.to}, p);
        AgreeOnPart(w, Apply(w, c, path), known + {h.to}, known, p);
        AgreeAt(w, Apply(w, c, path), known + {h.to}, p, h.to);
      } else {
        KeepersFollow(w, Take(w, c, h), Tail(path), known, p, {h.to}, Landing(w, c, h));
        forall r | r in Targets(path)
          ensures At(w, Apply(w, c, path), r) == Landing(w, c, h)
        {
          AgreeAt(w, Apply(w, c, path), {h.to} + Targets(Tail(path)), Landing(w, c, h), r);
        }
      }
    }
  }

  lemma LastIsTarget<O>(path: Path<O>)
    requires path != NoSource
    ensures Last(path).to in Targets(path)
  {
  }

  lemma AgreeOnPart<V, O, P>(w: World<V, O, P>, c: Cache<V, O>, known: set<Rep>, part: set<Rep>, p: P)
    requires Agree(w, c, known, p) && part <= known
    ensures Agree(w, c, part, p)
  {
    hide At;
  }

  lemma AgreeAt<V, O, P>(w: World<V, O, P>, c: Cache<V, O>, known: set<Rep>, p: P, r: Rep)
    requires Agree(w, c, known, p) && r in known
    ensures At(w, c, r) == p
  {
    hide At;
  }

  // ---------- The exact condition, for every getter, status and frame ----------

  /** The place that the getter of `t` takes for the position if it has no source: the one its own
      field was of, or where the conversion lands that does not keep the place. */
  ghost function PlaceRead<V, O, P>(w: World<V, O, P>, c: Cache<V, O>, t: Rep): P {
    if PathOf(c, t) == NoSource then At(w, c, t) else StrayLanding(w, c, PathOf(c, t))
  }

  /** The path strays once, starts at something marked unless it strays at once, and ends in `t`. */
  ghost predicate Strays<V, O>(c: Cache<V, O>, t: Rep) {
    var path := PathOf(c, t);
    && path != NoSource && Linked(path) && OneStrays(path, c.frames) && Last(path).to == t
    && (First(path).read in c.status || !Keeps(First(path), c.frames))
    && Marked(c.status, path, t) <= c.status + Targets(path)
  }

  lemma UnsourcedGlobalStrays<V, O>(c: Cache<V, O>, t: Rep)
    requires Valid(c) && !Sourced(c, t) && !Blank(c, t) && !Local(t)
    ensures Strays(c, t)
  {
    hide SourcedByLtp, SourcedByUtm, PathNedI, PathEnuI, PathNedF, PathEnuF;
  }

  lemma UnsourcedIntStrays<V, O>(c: Cache<V, O>, t: Rep)
    requires Valid(c) && !Sourced(c, t) && !Blank(c, t) && (t == NedI || t == EnuI)
    ensures Strays(c, t)
  {
    hide PathEcefI, PathEcefF, PathLlaI, PathLlaF, PathUtmF, PathNedF, PathEnuF;
  }

  lemma UnsourcedFloatStrays<V, O>(c: Cache<V, O>, t: Rep)
    requires Valid(c) && !Sourced(c, t) && !Blank(c, t) && (t == NedF || t == EnuF)
    ensures Strays(c, t)
  {
    hide PathEcefI, PathEcefF, PathLlaI, PathLlaF, PathUtmF, PathNedI, PathEnuI;
  }

  lemma UnsourcedStrays<V, O>(c: Cache<V, O>, t: Rep)
    requires Valid(c) && !Sourced(c, t) && !Blank(c, t)
    ensures Strays(c, t)
  {
    hide Sourced, Blank, Strays, Valid;
    if !Local(t) {
      UnsourcedGlobalStrays(c, t);
    } else if t == NedI || t == EnuI {
      UnsourcedIntStrays(c, t);
    } else {
      UnsourcedFloatStrays(c, t);
    }
  }

  lemma BlankReads<V(!new), O(!new), P(!new)>(w: World<V, O, P>, c: Cache<V, O>, t: Rep, p: P)
    requires Valid(c) && Denotes(w, c, p) && Blank(c, t)
    ensures Calc(w, c, t) == Mark(c, t) && PlaceRead(w, c, t) == At(w, c, t)
    ensures Denotes(w, Calc(w, c, t), p) <==> At(w, c, t) == p
  {
    assert !Has(c, t);
    SourcedIff(c, t);
    hide Blank, PathOf, At, Valid;
    forall r
      ensures At(w, Mark(c, t), r) == At(w, c, r)
    {
      MarkKeepsPlaces(w, c, t, r);
    }
    assert t in Mark(c, t).status;
  }

  lemma StrayReads<V(!new), O(!new), P(!new)>(w: World<V, O, P>, c: Cache<V, O>, t: Rep, p: P)
    requires Reliable(w, c.frames) && Valid(c) && Denotes(w, c, p) && !Has(c, t) && Strays(c, t) && !RewritesEnu(c, t)
    ensures Denotes(w, Calc(w, c, t), p) <==> PlaceRead(w, c, t) == p
  {
    var path := PathOf(c, t);
    var c' := Apply(w, c, path);
    PathIsFresh(c, t);
    FreshTargets(c.status, path);
    StrayPathLands(w, c, path, c.status, p);
    StatusOfApply(w, c, path, t);
    hide Reliable, Valid, PathOf, Apply, Linked, OneStrays, Targets, Marked, StrayLanding, At, Last, First,
      Keeps, Strays;
    forall r
      ensures At(w, Mark(c', t), r) == At(w, c', r)
    {
      MarkKeepsPlaces(w, c', t, r);
    }
    assert t in Mark(c', t).status;
  }

  lemma FreshTargets<O>(known: set<Rep>, path: Path<O>)
    requires Fresh(known, path)
    ensures Targets(path) !! known
  {
  }

  lemma RewritingIsSourced<V, O>(c: Cache<V, O>, t: Rep)
    requires RewritesEnu(c, t) && Valid(c)
    ensures Sourced(c, t)
  {
  }

  /** All marked representations agree after a getter if and only if it had a source, or the place
      it read instead is the one the marked ones were of. */
  lemma GetterDenotesIff<V(!new), O(!new), P(!new)>(w: World<V, O, P>, c: Cache<V, O>, t: Rep, p: P)
    requires Reliable(w, c.frames) && Valid(c) && Denotes(w, c, p)
    ensures Denotes(w, Calc(w, c, t), p) <==> Sourced(c, t) || PlaceRead(w, c, t) == p
  {
    assert Has(c, t) ==> Sourced(c, t);
    hide Reliable, Valid, Denotes, Sourced, Calc, At, Blank, Strays, RewritesEnu, PlaceRead;
    if Sourced(c, t) {
      SourcedGetterDenotes(w, c, t, p);
    } else if Blank(c, t) {
      BlankReads(w, c, t, p);
    } else {
      if RewritesEnu(c, t) {
        RewritingIsSourced(c, t);
      }
      UnsourcedStrays(c, t);
      StrayReads(w, c, t, p);
    }
  }

  // ---------- The five ways to stray ----------

  /** It converts its own field: the float LLA getter while the integer LLA bit is set. */
  predicate ReadsItself<V, O>(c: Cache<V, O>, t: Rep) {
    t == LlaF && !Has(c, LlaF) && Has(c, LlaI)
  }

  /** It takes NED coordinates through a tangent plane they are not relative to: none is set, or
      the float one differs from the integer one. */
  ghost predicate Foreign<V, O>(c: Cache<V, O>, t: Rep) {
    var plane := c.frames.nedInitializedI;
    var planeF := plane && SamePlane(c);
    var ecef := Has(c, EcefI) || Has(c, EcefF);
    !Has(c, t) &&
    match t
    case EcefI => !ecef && if Has(c, NedI) then !plane else Has(c, NedF) && !planeF
    case EcefF => !ecef && if Has(c, NedF) then !planeF else Has(c, NedI) && !plane
    case LlaI => !ecef && !Has(c, LlaF) && if Has(c, NedF) then !planeF else Has(c, NedI) && !plane
    case LlaF => !ecef && !Has(c, LlaI) && (Has(c, NedF) || Has(c, NedI)) && !planeF
    case _ => false
  }

  /** What it takes to ECEF, the plane, and the value: NED goes to float LLA as a float. */
  function ForeignFrom<V, O>(c: Cache<V, O>, t: Rep): Rep {
    if t == EcefI then (if Has(c, NedI) then NedI else NedF) else if Has(c, NedF) || t == LlaF then NedF else NedI
  }

  function ForeignTo<V, O>(c: Cache<V, O>, t: Rep): Rep {
    if ForeignFrom(c, t) == NedF then EcefF else EcefI
  }

  function ForeignPlane<V, O>(c: Cache<V, O>, t: Rep): O {
    if ForeignFrom(c, t) == NedF then c.frames.nedOriginF else c.frames.nedOrigin
  }

  function ForeignValue<V, O, P>(w: World<V, O, P>, c: Cache<V, O>, t: Rep): V {
    if ForeignFrom(c, t) == NedI then c.nedI
    else if Has(c, NedF) then c.nedF
    else w.convert(NedI, NedF, Nowhere, c.nedI)
  }

  /** It takes integer LLA to integer local coordinates, in the wrong unit. */
  predicate WrongUnit<V, O>(c: Cache<V, O>, t: Rep) {
    && (t == NedI || t == EnuI) && c.frames.nedInitializedI && Has(c, LlaI)
    && !Has(c, NedI) && !Has(c, NedF) && !Has(c, EnuI) && !Has(c, EnuF)
    && !Has(c, EcefI) && !Has(c, EcefF) && !Has(c, LlaF)
  }

  /** It takes float ECEF or LLA to local coordinates through the float tangent plane, which
      differs from the integer one. */
  ghost predicate Skewed<V, O>(c: Cache<V, O>, t: Rep) {
    && c.frames.nedInitializedI && !SamePlane(c) && !Has(c, t) && !Has(c, NedI) && !Has(c, NedF)
    && match t
       case NedI => !Has(c, EnuI) && !Has(c, EnuF) && !Has(c, EcefI) && (Has(c, EcefF) || Has(c, LlaF))
       case EnuI => !Has(c, EnuF) && !Has(c, EcefI) && (Has(c, EcefF) || Has(c, LlaF))
       case NedF => Has(c, EcefF) || (!Has(c, EcefI) && Has(c, LlaF))
       case EnuF => !Has(c, EnuI) && (Has(c, EcefF) || (!Has(c, EcefI) && Has(c, LlaF)))
       case _ => false
  }

  /** The float representation of `t`'s axes. */
  function AsFloat(t: Rep): Rep {
    if t == NedI || t == NedF then NedF else EnuF
  }

  /** What it takes, and its value: LLA goes to the integers by way of ECEF. */
  function SkewedFrom<V, O>(c: Cache<V, O>, t: Rep): Rep {
    if Has(c, EcefF) || t == NedI || t == EnuI then EcefF else LlaF
  }

  function SkewedValue<V, O, P>(w: World<V, O, P>, c: Cache<V, O>, t: Rep): V {
    if Has(c, EcefF) then c.ecefF
    else if t == NedI || t == EnuI then w.convert(LlaF, EcefF, Nowhere, c.llaF)
    else c.llaF
  }

  /** It takes the distance of a UTM position from the UTM origin, which is in another zone. */
  predicate OtherZone<V, O>(c: Cache<V, O>, t: Rep) {
    && Local(t) && !c.frames.nedInitializedI && c.frames.utmInitializedF && !SameZone(c)
    && !Has(c, NedI) && !Has(c, NedF) && !Has(c, EnuI) && !Has(c, EnuF)
    && (Has(c, UtmF) || Has(c, LlaF) || Has(c, LlaI))
  }

  /** The UTM position, made from LLA if none is marked. */
  function ZonedValue<V, O, P>(w: World<V, O, P>, c: Cache<V, O>): V {
    var zone := Zone(c.frames.zone);
    if Has(c, UtmF) then c.utmF
    else if Has(c, LlaF) then w.convert(LlaF, UtmF, zone, c.llaF)
    else w.convert(LlaF, UtmF, zone, w.convert(LlaI, LlaF, Nowhere, c.llaI))
  }

  /** A getter without a source looks at nothing marked or does one of these five things. */
  lemma KindsAreComplete<V, O>(c: Cache<V, O>, t: Rep)
    requires Valid(c)
    ensures !Sourced(c, t) <==>
      Blank(c, t) || ReadsItself(c, t) || Foreign(c, t) || WrongUnit(c, t) || Skewed(c, t) || OtherZone(c, t)
  {
  }

  lemma KindsAreDistinct<V, O>(c: Cache<V, O>, t: Rep)
    requires Valid(c)
    ensures Blank(c, t) ==>
      !ReadsItself(c, t) && !Foreign(c, t) && !WrongUnit(c, t) && !Skewed(c, t) && !OtherZone(c, t)
    ensures ReadsItself(c, t) ==> !Foreign(c, t) && !WrongUnit(c, t) && !Skewed(c, t) && !OtherZone(c, t)
    ensures Foreign(c, t) ==> !WrongUnit(c, t) && !Skewed(c, t) && !OtherZone(c, t)
    ensures WrongUnit(c, t) ==> !Skewed(c, t) && !OtherZone(c, t)
    ensures Skewed(c, t) ==> !OtherZone(c, t)
  {
  }

  lemma ForeignPlaceRead<V, O, P>(w: World<V, O, P>, c: Cache<V, O>, t: Rep)
    requires Valid(c) && Foreign(c, t)
    ensures var e := w.convert(ForeignFrom(c, t), ForeignTo(c, t), Ltp(ForeignPlane(c, t)), ForeignValue(w, c, t));
      PlaceRead(w, c, t) == w.point(ForeignTo(c, t), Nowhere, e)
  {
    hide PathNedI, PathNedF, PathEnuI, PathEnuF;
  }

  lemma WrongUnitPlaceRead<V, O, P>(w: World<V, O, P>, c: Cache<V, O>, t: Rep)
    requires Valid(c) && WrongUnit(c, t)
    ensures var frame := Ltp(c.frames.nedOrigin);
      PlaceRead(w, c, t) == w.point(t, frame, w.convert(LlaI, t, frame, c.llaI))
  {
  }

  lemma SkewedPlaceRead<V, O, P>(w: World<V, O, P>, c: Cache<V, O>, t: Rep)
    requires Valid(c) && Skewed(c, t)
    ensures var x := w.convert(SkewedFrom(c, t), AsFloat(t), Ltp(c.frames.nedOriginF), SkewedValue(w, c, t));
      PlaceRead(w, c, t) == w.point(AsFloat(t), Ltp(c.frames.nedOrigin), x)
  {
    hide PathEcefI, PathEcefF, PathLlaI, PathLlaF, PathUtmF;
  }

  lemma OtherZonePlaceRead<V, O, P>(w: World<V, O, P>, c: Cache<V, O>, t: Rep)
    requires Valid(c) && OtherZone(c, t)
    ensures var frame := Utm(c.frames.utmOrigin, c.frames.utmOriginZone);
      PlaceRead(w, c, t) == w.point(AsFloat(t), frame, w.convert(UtmF, AsFloat(t), frame, ZonedValue(w, c)))
  {
    hide PathEcefI, PathEcefF, PathLlaI, PathLlaF, PathUtmF;
  }

  lemma ReadsItselfPlaceRead<V(!new), O(!new), P(!new)>(w: World<V, O, P>, c: Cache<V, O>)
    requires Faithful(w) && ReadsItself(c, LlaF)
    ensures PlaceRead(w, c, LlaF) == w.point(LlaI, Nowhere, c.llaF)
  {
    var h, fr := Hop(LlaF, LlaI, LlaF, LlaF, Nowhere), c.frames.(nedInitializedI := false);
    assert PathOf(c, LlaF) == One(h);
    assert Sound(LlaI, LlaF, Nowhere, fr) && RelativeTo(fr, LlaI) == RelativeTo(fr, LlaF) == Nowhere;
    hide Sound;
    assert w.point(LlaF, RelativeTo(fr, LlaF), w.convert(LlaI, LlaF, Nowhere, c.llaF))
        == w.point(LlaI, RelativeTo(fr, LlaI), c.llaF);
  }

  /** The float LLA getter while the integer LLA bit is set: right exactly if its own old value,
      taken for an integer one, is of the place. */
  lemma LlaFloatRightIff<V(!new), O(!new), P(!new)>(w: World<V, O, P>, c: Cache<V, O>, p: P)
    requires Reliable(w, c.frames) && Valid(c) && Denotes(w, c, p) && Has(c, LlaI) && !Has(c, LlaF)
    ensures Denotes(w, Calc(w, c, LlaF), p) <==> w.point(LlaI, Nowhere, c.llaF) == p
  {
    KindsAreComplete(c, LlaF);
    assert ReadsItself(c, LlaF);
    hide Faithful, OnProperPlane, Valid, Denotes, Calc, Sourced, PlaceRead, ReadsItself;
    ReadsItselfPlaceRead(w, c);
    GetterDenotesIff(w, c, LlaF, p);
  }

  /** Through a plane the NED coordinates are not relative to: right exactly if the ECEF coordinates
      that come out of it are of the place. */
  lemma ForeignReads<V(!new), O(!new), P(!new)>(w: World<V, O, P>, c: Cache<V, O>, t: Rep, p: P)
    requires Reliable(w, c.frames) && Valid(c) && Denotes(w, c, p) && Foreign(c, t)
    ensures var e := w.convert(ForeignFrom(c, t), ForeignTo(c, t), Ltp(ForeignPlane(c, t)), ForeignValue(w, c, t));
      Denotes(w, Calc(w, c, t), p) <==> w.point(ForeignTo(c, t), Nowhere, e) == p
  {
    KindsAreComplete(c, t);
    ForeignPlaceRead(w, c, t);
    hide Reliable, Valid, Denotes, Calc, Sourced, PlaceRead, Foreign, ForeignFrom, ForeignTo, ForeignPlane,
      ForeignValue;
    GetterDenotesIff(w, c, t, p);
  }

  lemma WrongUnitReads<V(!new), O(!new), P(!new)>(w: World<V, O, P>, c: Cache<V, O>, t: Rep, p: P)
    requires Reliable(w, c.frames) && Valid(c) && Denotes(w, c, p) && WrongUnit(c, t)
    ensures var frame := Ltp(c.frames.nedOrigin);
      Denotes(w, Calc(w, c, t), p) <==> w.point(t, frame, w.convert(LlaI, t, frame, c.llaI)) == p
  {
    KindsAreComplete(c, t);
    hide Reliable, Valid, Denotes, Calc, Sourced, PlaceRead, WrongUnit;
    WrongUnitPlaceRead(w, c, t);
    GetterDenotesIff(w, c, t, p);
  }

  /** Through the float plane: right exactly if the coordinates that come out of it are those of the
      place in the integer plane. */
  lemma SkewedReads<V(!new), O(!new), P(!new)>(w: World<V, O, P>, c: Cache<V, O>, t: Rep, p: P)
    requires Reliable(w, c.frames) && Valid(c) && Denotes(w, c, p) && Skewed(c, t)
    ensures
      var x := w.convert(SkewedFrom(c, t), AsFloat(t), Ltp(c.frames.nedOriginF), SkewedValue(w, c, t));
      Denotes(w, Calc(w, c, t), p) <==> w.point(AsFloat(t), Ltp(c.frames.nedOrigin), x) == p
  {
    KindsAreComplete(c, t);
    SkewedPlaceRead(w, c, t);
    hide Reliable, Valid, Denotes, Calc, Sourced, PlaceRead, Skewed, SkewedValue, SkewedFrom;
    GetterDenotesIff(w, c, t, p);
  }

  lemma OtherZoneReads<V(!new), O(!new), P(!new)>(w: World<V, O, P>, c: Cache<V, O>, t: Rep, p: P)
    requires Reliable(w, c.frames) && Valid(c) && Denotes(w, c, p) && OtherZone(c, t)
    ensures var frame := Utm(c.frames.utmOrigin, c.frames.utmOriginZone);
      var x := w.convert(UtmF, AsFloat(t), frame, ZonedValue(w, c));
      Denotes(w, Calc(w, c, t), p) <==> w.point(AsFloat(t), frame, x) == p
  {
    KindsAreComplete(c, t);
    OtherZonePlaceRead(w, c, t);
    hide Reliable, Valid, Denotes, Calc, Sourced, PlaceRead, OtherZone, ZonedValue;
    GetterDenotesIff(w, c, t, p);
  }

  /** The float LLA getter converts its own old value when the integer one is marked: the
      answer does not depend on the position, so it can be right for one place at most. */
  lemma LlaFloatIgnoresPosition<V, O, P>(w: World<V, O, P>, c: Cache<V, O>, v1: V, v2: V)
    requires Has(c, LlaI) && !Has(c, LlaF)
    ensures Value(Calc(w, Put(c, LlaI, v1), LlaF), LlaF) == Value(Calc(w, Put(c, LlaI, v2), LlaF), LlaF)
    ensures !Sourced(c, LlaF) && !Blank(c, LlaF)
  {
  }

  lemma LlaFloatRightForOnePlaceOnly<V(!new), O(!new), P(!new)>(w: World<V, O, P>, c: Cache<V, O>, v1: V, v2: V)
    requires Has(c, LlaI) && !Has(c, LlaF)
    requires w.point(LlaI, Nowhere, v1) != w.point(LlaI, Nowhere, v2)
    ensures !Denotes(w, Calc(w, Put(c, LlaI, v1), LlaF), w.point(LlaI, Nowhere, v1))
         || !Denotes(w, Calc(w, Put(c, LlaI, v2), LlaF), w.point(LlaI, Nowhere, v2))
  {
    var c1, c2 := Calc(w, Put(c, LlaI, v1), LlaF), Calc(w, Put(c, LlaI, v2), LlaF);
    LlaFloatIgnoresPosition(w, c, v1, v2);
    assert LlaF in c1.status && LlaF in c2.status;
    assert At(w, c1, LlaF) == At(w, c2, LlaF);
  }

  // ---------- No weaker condition will do ----------

  function Offset(f: Origin<int>): int {
    match f
    case Nowhere => 0
    case Ltp(o) => o
    case Utm(o, zone) => o + zone
    case Zone(zone) => zone
  }

  /** Places on a line, local coordinates being distances from an origin; the two conversions in
      the wrong unit are one off. */
  function ShiftedWorld(): World<int, int, int> {
    World(
      (from, to, f, v) =>
        if from == LlaI && (to == NedI || to == EnuI) then v - Offset(f) + 1
        else if Local(from) && Local(to) then v
        else if Local(to) then v - (if f.Utm? then f.utm else Offset(f))
        else if Local(from) || (from == UtmF && to != UtmF) then v + Offset(f)
        else if to == UtmF && from != UtmF then v - Offset(f)
        else v,
      (r, f, v) => v + Offset(f),
      o => o + 1,
      _ => true)
  }

  lemma ShiftedWorldIsFaithful()
    ensures Faithful(ShiftedWorld())
  {
  }

  function SpoiledFrames<O>(fr: Frames<O>, same: bool): Frames<int> {
    Frames(fr.nedInitializedI, fr.nedInitializedF, fr.utmInitializedF,
           5, if same then 5 else 6, 7, fr.utmOriginZone, fr.zone)
  }

  /** The value of place 0, or of place 1 for a field that is not marked. */
  function SpoiledValue<V, O>(c: Cache<V, O>, fr: Frames<int>, r: Rep): int {
    (if Has(c, r) then 0 else 1) - Offset(RelativeTo(fr, r))
  }

  /** The same status and flags, with every marked field right and every other one wrong. */
  ghost function Spoiled<V, O>(c: Cache<V, O>): Cache<int, int> {
    var fr := SpoiledFrames(c.frames, SamePlane(c));
    Cache(c.status,
          SpoiledValue(c, fr, EcefI), SpoiledValue(c, fr, NedI), SpoiledValue(c, fr, EnuI), SpoiledValue(c, fr, LlaI),
          SpoiledValue(c, fr, EcefF), SpoiledValue(c, fr, NedF), SpoiledValue(c, fr, EnuF), SpoiledValue(c, fr, LlaF),
          SpoiledValue(c, fr, UtmF),
          fr)
  }

  lemma SpoiledAt<V, O>(c: Cache<V, O>, r: Rep)
    ensures At(ShiftedWorld(), Spoiled(c), r) == if Has(c, r) then 0 else 1
  {
    hide RelativeTo, Offset;
  }

  lemma SpoiledAgrees<V, O>(c: Cache<V, O>)
    ensures Denotes(ShiftedWorld(), Spoiled(c), 0)
  {
    hide At, ShiftedWorld;
    forall r | r in Spoiled(c).status
      ensures At(ShiftedWorld(), Spoiled(c), r) == 0
    {
      SpoiledAt(c, r);
    }
  }

  /** What decides the getters is unchanged. */
  lemma SpoiledIsAlike<V, O>(c: Cache<V, O>)
    ensures var c' := Spoiled(c);
      && c'.status == c.status && (SamePlane(c') <==> SamePlane(c)) && (SameZone(c') <==> SameZone(c))
      && c'.frames.nedInitializedI == c.frames.nedInitializedI
      && c'.frames.nedInitializedF == c.frames.nedInitializedF
      && c'.frames.utmInitializedF == c.frames.utmInitializedF
      && (Valid(c') <==> Valid(c))
  {
  }

  lemma SpoiledIsSourcedAlike<V, O>(c: Cache<V, O>, t: Rep)
    ensures Sourced(Spoiled(c), t) <==> Sourced(c, t)
  {
    SpoiledIsAlike(c);
    hide Spoiled, SamePlane, SameZone;
  }

  lemma SpoiledForeign<V, O>(c: Cache<V, O>, t: Rep)
    requires Valid(c) && Foreign(c, t)
    ensures PlaceRead(ShiftedWorld(), Spoiled(c), t) != 0
  {
    var w, c' := ShiftedWorld(), Spoiled(c);
    SpoiledIsAlike(c);
    SpoiledForeignKind(c, t);
    SpoiledForeignValue(c, t);
    SpoiledForeignPlane(c, t);
    OffsetOfPlane(ForeignPlane(c', t));
    hide PlaceRead, Foreign, Spoiled, ForeignFrom, ForeignTo, ForeignPlane, ForeignValue, LocalFrame, Offset;
    ForeignPlaceRead(w, c', t);
  }

  lemma OffsetOfPlane(o: int)
    ensures Offset(Ltp(o)) == o && Offset(Nowhere) == 0
  {
  }

  lemma SpoiledForeignKind<V, O>(c: Cache<V, O>, t: Rep)
    requires Foreign(c, t)
    ensures var c' := Spoiled(c);
      && Foreign(c', t) && ForeignFrom(c', t) == ForeignFrom(c, t)
      && Local(ForeignFrom(c', t)) && !Local(ForeignTo(c', t)) && ForeignTo(c', t) != UtmF
  {
    SpoiledIsAlike(c);
    hide Spoiled, SamePlane, SameZone;
  }

  lemma SpoiledForeignValue<V, O>(c: Cache<V, O>, t: Rep)
    requires Foreign(c, t)
    ensures ForeignValue(ShiftedWorld(), Spoiled(c), t) == -Offset(LocalFrame(Spoiled(c).frames))
  {
    hide Offset, LocalFrame, SamePlane;
  }

  /** It is taken through a plane that it is not relative to. */
  lemma SpoiledForeignPlane<V, O>(c: Cache<V, O>, t: Rep)
    requires Foreign(c, t)
    ensures ForeignPlane(Spoiled(c), t) != Offset(LocalFrame(Spoiled(c).frames))
  {
  }

  lemma SpoiledUnit<V, O>(c: Cache<V, O>, t: Rep)
    requires Valid(c) && WrongUnit(c, t)
    ensures PlaceRead(ShiftedWorld(), Spoiled(c), t) == 1
  {
    SpoiledIsAlike(c);
    assert Spoiled(c).llaI == 0;
    hide Spoiled, PlaceRead;
    WrongUnitPlaceRead(ShiftedWorld(), Spoiled(c), t);
  }

  lemma SpoiledSkewed<V, O>(c: Cache<V, O>, t: Rep)
    requires Valid(c) && Skewed(c, t)
    ensures PlaceRead(ShiftedWorld(), Spoiled(c), t) == -1
  {
    SpoiledIsAlike(c);
    var c' := Spoiled(c);
    assert Skewed(c', t) && c'.frames.nedOrigin == 5 && c'.frames.nedOriginF == 6;
    assert Has(c, EcefF) ==> c'.ecefF == 0;
    assert Has(c, LlaF) ==> c'.llaF == 0;
    hide Spoiled, PlaceRead;
    SkewedPlaceRead(ShiftedWorld(), c', t);
  }

  lemma SpoiledZone<V, O>(c: Cache<V, O>, t: Rep)
    requires Valid(c) && OtherZone(c, t)
    ensures PlaceRead(ShiftedWorld(), Spoiled(c), t) != 0
  {
    SpoiledIsAlike(c);
    var c' := Spoiled(c);
    assert OtherZone(c', t);
    assert ZonedValue(ShiftedWorld(), c') + c'.frames.zone == 0;
    hide Spoiled, PlaceRead, ZonedValue;
    OtherZonePlaceRead(ShiftedWorld(), c', t);
  }

  lemma SpoiledReadsElsewhere<V, O>(c: Cache<V, O>, t: Rep)
    requires Valid(c) && !Sourced(c, t)
    ensures PlaceRead(ShiftedWorld(), Spoiled(c), t) != 0
  {
    KindsAreComplete(c, t);
    hide ShiftedWorld, PlaceRead, Sourced, Foreign, WrongUnit, Skewed, OtherZone, Spoiled;
    if Foreign(c, t) {
      SpoiledForeign(c, t);
    } else if WrongUnit(c, t) {
      SpoiledUnit(c, t);
    } else if Skewed(c, t) {
      SpoiledSkewed(c, t);
    } else if OtherZone(c, t) {
      SpoiledZone(c, t);
    } else {
      SpoiledOwnField(c, t);
    }
  }

  lemma SpoiledOwnField<V, O>(c: Cache<V, O>, t: Rep)
    requires Valid(c) && (Blank(c, t) || ReadsItself(c, t))
    ensures PlaceRead(ShiftedWorld(), Spoiled(c), t) != 0
  {
    SpoiledIsAlike(c);
    assert !Has(c, t);
    SpoiledAt(c, t);
    if Blank(c, t) {
      BlankAlike(c, t);
      assert PlaceRead(ShiftedWorld(), Spoiled(c), t) == At(ShiftedWorld(), Spoiled(c), t);
    } else {
      ShiftedWorldIsFaithful();
      ReadsItselfPlaceRead(ShiftedWorld(), Spoiled(c));
    }
    hide PlaceRead, Faithful, Blank;
  }

  lemma BlankAlike<V, O>(c: Cache<V, O>, t: Rep)
    requires Valid(c) && Blank(c, t)
    ensures PathOf(Spoiled(c), t) == NoSource
  {
    SpoiledIsAlike(c);
    hide Spoiled;
    SourcedIff(Spoiled(c), t);
  }

  /** The table of sources is exact: for every status word, flags and zones for which it names none,
      and planes alike or not, there are a faithful world and values, right in every marked field,
      with which the getter fails. */
  lemma UnsourcedGetterCanFail<V, O>(c: Cache<V, O>, t: Rep)
    requires Valid(c) && !Sourced(c, t)
    ensures var w, c' := ShiftedWorld(), Spoiled(c);
      && Faithful(w) && Denotes(w, c', 0) && !Denotes(w, Calc(w, c', t), 0)
      && c'.status == c.status && (SamePlane(c') <==> SamePlane(c)) && (SameZone(c') <==> SameZone(c))
      && c'.frames.nedInitializedI == c.frames.nedInitializedI
      && c'.frames.nedInitializedF == c.frames.nedInitializedF
      && c'.frames.utmInitializedF == c.frames.utmInitializedF
  {
    ShiftedWorldIsFaithful();
    SpoiledAgrees(c);
    SpoiledReadsElsewhere(c, t);
    SpoiledIsSourcedAlike(c, t);
    SpoiledIsAlike(c);
    hide Faithful, Valid, Denotes, Sourced, Calc, PlaceRead, ShiftedWorld, Spoiled, SamePlane, SameZone;
    GetterDenotesIff(ShiftedWorld(), Spoiled(c), t, 0);
  }

  // ---------- Runs ----------

  datatype Op<V, O> = Get(r: Rep) | SetTo(r: Rep, v: V, zone: uint8) | Move(origin: O) | MoveUtm(origin: O, zone: uint8)

  function Step<V, O, P>(w: World<V, O, P>, c: Cache<V, O>, op: Op<V, O>): Cache<V, O> {
    match op
    case Get(r) => Calc(w, c, r)
    case SetTo(r, v, zone) => Set(c, r, v, zone)
    case Move(origin) => MoveOrigin(w, c, origin)
    case MoveUtm(origin, zone) => MoveUtmOrigin(c, origin, zone)
  }

  function Run<V, O, P>(w: World<V, O, P>, c: Cache<V, O>, ops: seq<Op<V, O>>): Cache<V, O> {
    if |ops| == 0 then c else Step(w, Run(w, c, ops[..|ops| - 1]), ops[|ops| - 1])
  }

  /** The place meant after an operation: that of the last position set. */
  ghost function Meant<V, O, P>(w: World<V, O, P>, c: Cache<V, O>, op: Op<V, O>, p: P): P {
    match op
    case SetTo(r, v, zone) => At(w, Set(c, r, v, zone), r)
    case _ => p
  }

  ghost function MeantAfter<V, O, P>(w: World<V, O, P>, c: Cache<V, O>, ops: seq<Op<V, O>>, p: P): P {
    if |ops| == 0 then p else
      var before := ops[..|ops| - 1];
      Meant(w, Run(w, c, before), ops[|ops| - 1], MeantAfter(w, c, before, p))
  }

  /** A getter is used where it has a source, and the planes set are proper; setters and UTM origins
      are free. */
  ghost predicate Allowed<V, O, P>(w: World<V, O, P>, c: Cache<V, O>, op: Op<V, O>) {
    (op.Get? ==> Sourced(c, op.r)) && (op.Move? ==> w.proper(op.origin))
  }

  ghost predicate AllAllowed<V, O, P>(w: World<V, O, P>, c: Cache<V, O>, ops: seq<Op<V, O>>) {
    |ops| == 0 ||
      (AllAllowed(w, c, ops[..|ops| - 1]) && Allowed(w, Run(w, c, ops[..|ops| - 1]), ops[|ops| - 1]))
  }

  lemma SetDenotes<V(!new), O(!new), P(!new)>(w: World<V, O, P>, c: Cache<V, O>, r: Rep, v: V, zone: uint8)
    ensures var c' := Set(c, r, v, zone);
      && Denotes(w, c', w.point(r, RelativeTo(c'.frames, r), v))
      && Value(c', r) == v && LocalFrame(c'.frames) == LocalFrame(c.frames)
  {
  }

  lemma MoveDenotes<V(!new), O(!new), P(!new)>(w: World<V, O, P>, c: Cache<V, O>, origin: O, zone: uint8, p: P)
    requires Denotes(w, c, p)
    ensures Denotes(w, MoveOrigin(w, c, origin), p)
    ensures Denotes(w, MoveUtmOrigin(c, origin, zone), p)
  {
    var c1, c2 := MoveOrigin(w, c, origin), MoveUtmOrigin(c, origin, zone);
    forall r | r in c1.status || r in c2.status
      ensures At(w, c1, r) == p && At(w, c2, r) == p
    {
      assert At(w, c, r) == p;
      assert RelativeTo(c1.frames, r) == RelativeTo(c2.frames, r) == RelativeTo(c.frames, r);
      assert Value(c1, r) == Value(c2, r) == Value(c, r);
      hide Value, RelativeTo;
    }
  }

  lemma StepKeepsValid<V, O, P>(w: World<V, O, P>, c: Cache<V, O>, op: Op<V, O>)
    requires Valid(c)
    ensures Valid(Step(w, c, op))
  {
    if op.Get? && !Has(c, op.r) {
      StatusOfApply(w, c, PathOf(c, op.r), op.r);
      hide PathOf, Apply;
    }
  }

  lemma StepKeepsProper<V, O, P>(w: World<V, O, P>, c: Cache<V, O>, op: Op<V, O>)
    requires OnProperPlane(w, c.frames) && Allowed(w, c, op)
    ensures OnProperPlane(w, Step(w, c, op).frames)
  {
    if op.Get? {
      StatusOfGetter(w, c, op.r);
    }
    hide Calc, Put, Sourced;
    if op.SetTo? {
      ValueOfPut(c, op.r, op.v, op.r);
    }
  }

  lemma AllowedStepKeeps<V(!new), O(!new), P(!new)>(w: World<V, O, P>, c: Cache<V, O>, op: Op<V, O>, p: P)
    requires Reliable(w, c.frames) && Valid(c) && Denotes(w, c, p) && Allowed(w, c, op)
    ensures Reliable(w, Step(w, c, op).frames) && Valid(Step(w, c, op))
    ensures Denotes(w, Step(w, c, op), Meant(w, c, op, p))
    ensures op.Get? && !RewritesEnu(c, op.r) ==> Extends(c, Step(w, c, op), op.r)
  {
    StepKeepsValid(w, c, op);
    StepKeepsProper(w, c, op);
    match op
    case Get(r) =>
      SourcedGetterDenotes(w, c, r, p);
      if !RewritesEnu(c, r) {
        GetterExtends(w, c, r);
      }
      hide Faithful, OnProperPlane, Denotes, Calc, Value, Sourced, Valid, RewritesEnu;
    case SetTo(r, v, zone) =>
      SetDenotes(w, c, r, v, zone);
      hide Faithful, OnProperPlane, Denotes, Value, RelativeTo, Valid;
    case Move(origin) =>
      MoveDenotes(w, c, origin, 0, p);
      hide Faithful, OnProperPlane, Denotes, Value, RelativeTo, Valid;
    case MoveUtm(origin, zone) =>
      MoveDenotes(w, c, origin, zone, p);
      hide Faithful, OnProperPlane, Denotes, Value, RelativeTo, Valid;
  }

  /** In every run, from any start and in any frame, in which each getter has a source when it is
      used, every marked representation is of the last position set. */
  lemma {:induction false} EveryRunDenotes<V(!new), O(!new), P(!new)>(w: World<V, O, P>, c: Cache<V, O>,
      ops: seq<Op<V, O>>, p: P)
    requires Reliable(w, c.frames) && Valid(c) && Denotes(w, c, p) && AllAllowed(w, c, ops)
    ensures Reliable(w, Run(w, c, ops).frames) && Valid(Run(w, c, ops))
    ensures Denotes(w, Run(w, c, ops), MeantAfter(w, c, ops, p))
  {
    hide Reliable, Valid, Denotes, Step, Meant, Allowed;
    if |ops| > 0 {
      var before := ops[..|ops| - 1];
      EveryRunDenotes(w, c, before, p);
      AllowedStepKeeps(w, Run(w, c, before), ops[|ops| - 1], MeantAfter(w, c, before, p));
    }
  }

  // ---------- Runs in which every getter has a source ----------

  /** The status a getter leaves. */
  lemma StatusOfGetter<V, O, P>(w: World<V, O, P>, c: Cache<V, O>, t: Rep)
    ensures Calc(w, c, t).frames == c.frames
    ensures Calc(w, c, t).status == if Has(c, t) then c.status else Marked(c.status, PathOf(c, t), t)
  {
    StatusOfApply(w, c, PathOf(c, t), t);
    hide Apply, PathOf, Marked, Mark;
  }

  predicate Integer(r: Rep) {
    r == EcefI || r == NedI || r == EnuI || r == LlaI
  }

  /** In a tangent plane, the position held as ECEF or NED, in integers only. */
  predicate InIntegers<V, O>(c: Cache<V, O>) {
    && Valid(c) && c.frames.nedInitializedI && (Has(c, EcefI) || Has(c, NedI))
    && forall r :: r in c.status ==> Integer(r)
  }

  predicate IntegerOp<V, O, P>(w: World<V, O, P>, c: Cache<V, O>, op: Op<V, O>) {
    match op
    case Get(r) => Integer(r)
    case SetTo(r, v, zone) => r == EcefI || r == NedI
    case Move(origin) => Has(c, EcefI) && w.proper(origin)
    case MoveUtm(origin, zone) => Has(c, EcefI)
  }

  lemma IntegerGetterIsAllowed<V, O, P>(w: World<V, O, P>, c: Cache<V, O>, r: Rep)
    requires InIntegers(c) && Integer(r)
    ensures Sourced(c, r) && InIntegers(Calc(w, c, r))
  {
    assert !Has(c, EcefF) && !Has(c, NedF) && !Has(c, EnuF) && !Has(c, LlaF);
    StatusOfGetter(w, c, r);
    hide Calc, PathNedF, PathEnuF, PathLlaF, PathUtmF, PathEcefF;
  }

  lemma IntegerStepIsAllowed<V, O, P>(w: World<V, O, P>, c: Cache<V, O>, op: Op<V, O>)
    requires InIntegers(c) && IntegerOp(w, c, op)
    ensures Allowed(w, c, op) && InIntegers(Step(w, c, op))
  {
    if op.Get? {
      IntegerGetterIsAllowed(w, c, op.r);
    }
    hide Calc, Put, Sourced;
    if op.SetTo? {
      ValueOfPut(c, op.r, op.v, op.r);
    }
  }

  predicate AllIntegerOps<V, O, P>(w: World<V, O, P>, c: Cache<V, O>, ops: seq<Op<V, O>>) {
    |ops| == 0 ||
      (AllIntegerOps(w, c, ops[..|ops| - 1]) && IntegerOp(w, Run(w, c, ops[..|ops| - 1]), ops[|ops| - 1]))
  }

  /** Integer getters, integer positions in ECEF and NED, and origins moved while integer ECEF is
      marked: whatever the float plane is, all of it is allowed. */
  lemma {:induction false} EveryIntegerRunIsAllowed<V, O, P>(w: World<V, O, P>, c: Cache<V, O>, ops: seq<Op<V, O>>)
    requires InIntegers(c) && AllIntegerOps(w, c, ops)
    ensures AllAllowed(w, c, ops) && InIntegers(Run(w, c, ops))
  {
    hide InIntegers, IntegerOp, Allowed, Step;
    if |ops| > 0 {
      EveryIntegerRunIsAllowed(w, c, ops[..|ops| - 1]);
      IntegerStepIsAllowed(w, Run(w, c, ops[..|ops| - 1]), ops[|ops| - 1]);
    }
  }

  /** In a tangent plane whose float copy is the same, the position held as ECEF or NED. */
  ghost predicate Anchored<V, O>(c: Cache<V, O>) {
    && Valid(c) && c.frames.nedInitializedI && SamePlane(c)
    && (Has(c, EcefI) || Has(c, EcefF) || Has(c, NedI) || Has(c, NedF))
  }

  /** Positions are set as ECEF or NED, origins move while an ECEF representation is marked, and two
      getters are used only where they have a source. */
  predicate AnchoredOp<V, O, P>(w: World<V, O, P>, c: Cache<V, O>, op: Op<V, O>) {
    match op
    case Get(r) =>
      && (r == UtmF ==> Has(c, UtmF) || Has(c, LlaI) || Has(c, LlaF))
      && (r == LlaF ==> Has(c, LlaF) || !Has(c, LlaI))
    case SetTo(r, v, zone) => r == EcefI || r == EcefF || r == NedI || r == NedF
    case Move(origin) => (Has(c, EcefI) || Has(c, EcefF)) && w.proper(origin)
    case MoveUtm(origin, zone) => Has(c, EcefI) || Has(c, EcefF)
  }

  lemma AnchoredStepIsAllowed<V(!new), O(!new), P>(w: World<V, O, P>, c: Cache<V, O>, op: Op<V, O>)
    requires forall o :: w.proper(o) ==> w.floatPlane(o) == o
    requires Anchored(c) && AnchoredOp(w, c, op)
    ensures Allowed(w, c, op) && Anchored(Step(w, c, op))
  {
    if op.Get? && !Has(c, op.r) {
      StatusOfApply(w, c, PathOf(c, op.r), op.r);
    }
    hide PathOf, Apply, Put;
    if op.SetTo? {
      ValueOfPut(c, op.r, op.v, op.r);
    }
  }

  predicate AllAnchoredOps<V, O, P>(w: World<V, O, P>, c: Cache<V, O>, ops: seq<Op<V, O>>) {
    |ops| == 0 ||
      (AllAnchoredOps(w, c, ops[..|ops| - 1]) && AnchoredOp(w, Run(w, c, ops[..|ops| - 1]), ops[|ops| - 1]))
  }

  /** Were the float plane the integer one, float getters and positions would be allowed, too. */
  lemma {:induction false} EveryAnchoredRunIsAllowed<V(!new), O(!new), P>(w: World<V, O, P>, c: Cache<V, O>,
      ops: seq<Op<V, O>>)
    requires forall o :: w.proper(o) ==> w.floatPlane(o) == o
    requires Anchored(c) && AllAnchoredOps(w, c, ops)
    ensures AllAllowed(w, c, ops) && Anchored(Run(w, c, ops))
  {
    hide Anchored, AnchoredOp, Allowed, Step;
    if |ops| > 0 {
      EveryAnchoredRunIsAllowed(w, c, ops[..|ops| - 1]);
      AnchoredStepIsAllowed(w, Run(w, c, ops[..|ops| - 1]), ops[|ops| - 1]);
    }
  }

  /** In a UTM frame, the position held as UTM in the zone of the origin. */
  predicate InZone<V, O>(c: Cache<V, O>) {
    Valid(c) && !c.frames.nedInitializedI && c.frames.utmInitializedF && SameZone(c) && Has(c, UtmF)
  }

  predicate ZoneOp<V, O>(c: Cache<V, O>, op: Op<V, O>) {
    match op
    case Get(r) => Local(r) || r == UtmF
    case SetTo(r, v, zone) => r == UtmF && zone == c.frames.utmOriginZone
    case Move(origin) => false
    case MoveUtm(origin, zone) => zone == c.frames.zone
  }

  lemma ZoneStepIsAllowed<V, O, P>(w: World<V, O, P>, c: Cache<V, O>, op: Op<V, O>)
    requires InZone(c) && ZoneOp(c, op)
    ensures Allowed(w, c, op) && InZone(Step(w, c, op))
  {
    if op.Get? && !Has(c, op.r) {
      StatusOfApply(w, c, PathOf(c, op.r), op.r);
    }
    hide PathOf, Apply, Put;
    if op.SetTo? {
      ValueOfPut(c, op.r, op.v, op.r);
    }
  }

  predicate AllZoneOps<V, O, P>(w: World<V, O, P>, c: Cache<V, O>, ops: seq<Op<V, O>>) {
    |ops| == 0 ||
      (AllZoneOps(w, c, ops[..|ops| - 1]) && ZoneOp(Run(w, c, ops[..|ops| - 1]), ops[|ops| - 1]))
  }

  /** UTM positions and local getters in one zone are allowed in any order. */
  lemma {:induction false} EveryZoneRunIsAllowed<V, O, P>(w: World<V, O, P>, c: Cache<V, O>, ops: seq<Op<V, O>>)
    requires InZone(c) && AllZoneOps(w, c, ops)
    ensures AllAllowed(w, c, ops) && InZone(Run(w, c, ops))
  {
    hide InZone, ZoneOp, Allowed, Step;
    if |ops| > 0 {
      EveryZoneRunIsAllowed(w, c, ops[..|ops| - 1]);
      ZoneStepIsAllowed(w, Run(w, c, ops[..|ops| - 1]), ops[|ops| - 1]);
    }
  }

  /** Moving the origin of a position held in local coordinates only forgets it: every getter
      then marks whatever its field held. */
  lemma MovingOriginForgets<V(!new), O(!new), P(!new)>(w: World<V, O, P>, c: Cache<V, O>, origin: O, t: Rep, p: P)
    requires forall r :: r in c.status ==> Local(r)
    ensures var moved := MoveOrigin(w, c, origin);
      Denotes(w, moved, p) && (Denotes(w, Calc(w, moved, t), p) <==> At(w, moved, t) == p)
  {
    var moved := MoveOrigin(w, c, origin);
    assert moved.status == {};
    assert Blank(moved, t) && !Sourced(moved, t);
    hide Blank, Sourced, Calc, At, MoveOrigin;
    BlankReads(w, moved, t, p);
  }
}
