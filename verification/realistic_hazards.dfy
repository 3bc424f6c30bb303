/** The hazard props of the 3D scene (src/components/scene/RealisticHazards.tsx):
    the choice of a vignette from a hazard's free-text type, the meshes each
    vignette is built from (which ones react to a click and which ones turn
    green once the hazard is identified), the hint light, the spill disc and
    its warning cone. Per-frame animations are not part of this model. */
module RealisticHazards {
  import opened Types
  import opened Text

  /** The nine hand-built hazard props. */
  datatype Vignette = Spill | Stacking | Exit | Equipment | Lighting | PPE | Fire | Electrical | Chemical

  /** The `hazard.type` value that selects each prop: one of the types the
      dispatcher recognises. */
  function KindName(v: Vignette): (r: string)
    ensures r in KnownKinds
  {
    match v
    case Spill => "spill"
    case Stacking => "stacking"
    case Exit => "exit"
    case Equipment => "equipment"
    case Lighting => "lighting"
    case PPE => "ppe"
    case Fire => "fire"
    case Electrical => "electrical"
    case Chemical => "chemical"
  }

  /** The types the dispatcher recognises. */
  const KnownKinds: set<string> :=
    {"spill", "stacking", "exit", "equipment", "lighting", "ppe", "fire", "electrical", "chemical"}

  /** A type the dispatcher recognises: exactly the props' type names. */
  function KnownKind(kind: string): (r: bool)
    ensures r <==> exists v: Vignette :: KindName(v) == kind
  {
    assert kind in KnownKinds ==> KindName(VignetteFor(kind)) == kind;
    kind in KnownKinds
  }

  /** `RealisticHazard`'s switch: each known type selects its own prop and
      every other type is drawn as a spill. */
  function VignetteFor(kind: string): (v: Vignette)
    ensures kind in KnownKinds ==> KindName(v) == kind
    ensures kind !in KnownKinds ==> v == Spill
  {
    if kind == "spill" then Spill
    else if kind == "stacking" then Stacking
    else if kind == "exit" then Exit
    else if kind == "equipment" then Equipment
    else if kind == "lighting" then Lighting
    else if kind == "ppe" then PPE
    else if kind == "fire" then Fire
    else if kind == "electrical" then Electrical
    else if kind == "chemical" then Chemical
    else Spill
  }

  /** Each prop's own type name selects it again. */
  lemma VignetteForKindName(v: Vignette)
    ensures VignetteFor(KindName(v)) == v
  {
  }

  /** `hazard.size || fallback`: an absent or zero size takes the fallback. */
  function SizeOr(size: Option<real>, fallback: real): (r: real)
    ensures size.Some? && size.value != 0.0 ==> r == size.value
    ensures size.None? || size.value == 0.0 ==> r == fallback
    ensures fallback != 0.0 ==> r != 0.0
  {
    if size.Some? && size.value != 0.0 then size.value else fallback
  }

  const Green := "#22c55e"
  const WaterBlue := "#60a5fa"
  const OilDark := "#1e293b"

  /** The colour of the spill disc: green once identified; otherwise green for
      a chemical type, blue when the lower-cased description mentions water,
      and dark oil otherwise. */
  function SpillColor(h: Hazard, identified: bool): (c: string)
    ensures c in {Green, WaterBlue, OilDark}
    ensures c == Green <==> identified || h.kind == "chemical"
    ensures c == WaterBlue <==> !identified && h.kind != "chemical" && Contains(Lower(h.description), "water")
  {
    var color :=
      if h.kind == "chemical" then Green
      else if Contains(Lower(h.description), "water") then WaterBlue
      else OilDark;
    if identified then Green else color
  }

  /** A mesh of a prop: whether it reacts to a click and whether it is green
      once the hazard is identified. */
  datatype Part = Part(name: string, clickable: bool, greenWhenIdentified: bool)

  /** The meshes of each prop. Where the click handler sits on the prop's
      group every mesh reacts; the spill, the stacked boxes and the blocked
      exit carry it on individual meshes only. */
  function Parts(v: Vignette): (ps: seq<Part>)
    ensures |ps| > 0
  {
    match v
    case Spill => [Part("disc", true, true), Part("cone", false, false), Part("cone base", false, false)]
    case Stacking => [Part("bottom box", true, true), Part("middle box", true, true),
                      Part("top box", true, true), Part("fallen box", true, true)]
    case Exit => [Part("left frame", false, false), Part("right frame", false, false),
                  Part("lintel", false, false), Part("exit sign", false, false),
                  Part("blocking box 1", true, true), Part("blocking box 2", true, true),
                  Part("blocking box 3", true, true)]
    case Equipment => [Part("body", true, true), Part("cab", true, true),
                       Part("left mast", true, false), Part("right mast", true, false),
                       Part("left fork", true, false), Part("right fork", true, false),
                       Part("wheel 1", true, false), Part("wheel 2", true, false),
                       Part("wheel 3", true, false), Part("flat wheel", true, true),
                       Part("deflated bulge", true, false)]
    case Lighting => [Part("fixture", true, true), Part("bulb", true, true)]
    case PPE => [Part("sign post", true, false), Part("empty bracket", true, true),
                 Part("fallen sign", true, true)]
    case Fire => [Part("extinguisher", true, false), Part("nozzle", true, false),
                  Part("wall mount", true, false), Part("barrel 1", true, true),
                  Part("barrel 2", true, true)]
    case Electrical => [Part("panel", true, false), Part("wire 1", true, true),
                        Part("wire 2", true, true), Part("wire 3", true, true)]
    case Chemical => [Part("drum", true, true), Part("hazmat symbol", true, false),
                      Part("puddle", true, true)]
  }

  /** The meshes drawn: the spill's warning cone disappears once identified. */
  function VisibleParts(v: Vignette, identified: bool): (ps: seq<Part>)
    ensures forall p :: p in ps ==> p in Parts(v)
    ensures forall p :: p in Parts(v) && p.clickable ==> p in ps
  {
    if v == Spill && identified then [Parts(Spill)[0]] else Parts(v)
  }

  /** A mesh of each prop that reacts to a click and turns green. */
  function ClickableWitness(v: Vignette): (p: Part)
    ensures p in Parts(v) && p.clickable && p.greenWhenIdentified
  {
    match v
    case Exit => Parts(Exit)[4]
    case PPE => Parts(PPE)[1]
    case Fire => Parts(Fire)[3]
    case Electrical => Parts(Electrical)[1]
    case _ => Parts(v)[0]
  }

  /** Every prop, identified or not, shows a mesh that reacts to a click and
      a mesh that turns green on identification. */
  lemma EveryPropIsClickableAndHighlights(v: Vignette, identified: bool)
    ensures exists p :: p in VisibleParts(v, identified) && p.clickable
    ensures exists p :: p in VisibleParts(v, identified) && p.greenWhenIdentified
  {
    var p := ClickableWitness(v);
    assert p in VisibleParts(v, identified);
  }

  /** The click handler of a mesh: `if (!identified) onIdentify(hazard.id)`,
      on the meshes that carry one. The result is the id reported, if any. */
  function ClickPart(h: Hazard, identified: bool, p: Part): (r: Option<string>)
    ensures r.Some? <==> p.clickable && !identified
    ensures r.Some? ==> r.value == h.id
  {
    if p.clickable && !identified then Some(h.id) else None
  }

  /** Where the red hint light sits relative to the prop: always within 3
      units of it, the shortest reach any hint light is given, so the light
      falls on the prop it marks. */
  function HintOffset(v: Vignette): (r: Vec3)
    ensures r.x * r.x + r.y * r.y + r.z * r.z < 3.0 * 3.0
  {
    match v
    case Spill => Vec3(0.0, 0.5, 0.0)
    case Stacking => Vec3(0.0, 1.5, 0.0)
    case Exit => Vec3(0.0, 1.0, 0.5)
    case Equipment => Vec3(0.6, 0.5, -0.6)
    case Lighting => Vec3(0.0, -0.5, 0.0)
    case PPE => Vec3(0.0, 1.0, 0.0)
    case Fire => Vec3(0.0, 1.0, 0.3)
    case Electrical => Vec3(0.0, 0.4, 0.2)
    case Chemical => Vec3(0.3, 0.3, 0.3)
  }

  /** What a prop looks like: its group origin, the meshes drawn, the hint
      light, the warning cone, the radius of its floor disc and, for a spill,
      the disc colour. */
  datatype Prop = Prop(
    vignette: Vignette,
    origin: Vec3,
    parts: seq<Part>,
    hint: Option<Vec3>,
    cone: Option<Vec3>,
    discRadius: Option<real>,
    spillColor: Option<string>)

  /** `<RealisticHazard hazard identified showHint/>`. */
  function Render(h: Hazard, identified: bool, showHint: bool): (p: Prop)
    ensures p.vignette == VignetteFor(h.kind)
    ensures p.origin == Vec3(h.x, h.y, h.z)
    ensures p.hint.Some? <==> showHint && !identified
    ensures p.hint.Some? ==> p.hint.value == HintOffset(p.vignette)
    ensures p.cone.Some? <==> p.vignette == Spill && !identified
    ensures p.cone.Some? ==> p.cone.value == Vec3(SizeOr(h.size, 1.5) + 0.3, 0.0, 0.0)
    ensures p.discRadius.Some? <==> p.vignette in {Spill, Chemical}
    ensures p.vignette == Spill ==> p.discRadius == Some(SizeOr(h.size, 1.5))
    ensures p.vignette == Chemical ==> p.discRadius == Some(SizeOr(h.size, 1.2))
    ensures p.spillColor.Some? <==> p.vignette == Spill
    ensures p.vignette == Spill ==> p.spillColor == Some(SpillColor(h, identified))
    ensures p.parts == VisibleParts(p.vignette, identified)
  {
    var v := VignetteFor(h.kind);
    Prop(
      v,
      Vec3(h.x, h.y, h.z),
      VisibleParts(v, identified),
      if showHint && !identified then Some(HintOffset(v)) else None,
      if v == Spill && !identified then Some(Vec3(SizeOr(h.size, 1.5) + 0.3, 0.0, 0.0)) else None,
      if v == Spill then Some(SizeOr(h.size, 1.5))
      else if v == Chemical then Some(SizeOr(h.size, 1.2))
      else None,
      if v == Spill then Some(SpillColor(h, identified)) else None)
  }

  /** A click on any drawn mesh reports at most the hazard's own id, and an
      identified hazard reports nothing. */
  lemma ClicksReportOwnIdOnce(h: Hazard, identified: bool, showHint: bool)
    ensures forall q :: q in Render(h, identified, showHint).parts ==>
              (ClickPart(h, identified, q).Some? ==> ClickPart(h, identified, q).value == h.id) &&
              (identified ==> ClickPart(h, identified, q).None?)
  {
  }

  /** An unidentified hazard of any type can be clicked. */
  lemma UnidentifiedCanBeClicked(h: Hazard, showHint: bool)
    ensures exists q :: q in Render(h, false, showHint).parts && ClickPart(h, false, q) == Some(h.id)
  {
    var q := ClickableWitness(VignetteFor(h.kind));
    assert q in Render(h, false, showHint).parts;
  }

  /** The warning cone (base radius 0.18) stands clear of a spill disc of
      positive radius: its centre is 0.3 beyond the disc's edge. */
  lemma ConeClearOfSpill(h: Hazard, showHint: bool)
    requires VignetteFor(h.kind) == Spill
    requires SizeOr(h.size, 1.5) > 0.0
    ensures Render(h, false, showHint).cone.value.x - Render(h, false, showHint).discRadius.value > 0.18
  {
  }

  /** Chemical hazards are routed to the drum prop, so a spill prop is never
      green before identification: the chemical colour of the spill is
      unreachable through the dispatcher. */
  lemma SpillNeverChemicalGreen(h: Hazard, showHint: bool)
    requires Render(h, false, showHint).vignette == Spill
    ensures Render(h, false, showHint).spillColor.value != Green
  {
  }

  /** The hint shows only for an unidentified hazard while hints are on, at
      the same place relative to the prop whatever the hazard's position. */
  lemma HintIndependentOfPosition(h1: Hazard, h2: Hazard, identified: bool, showHint: bool)
    requires h1.kind == h2.kind
    ensures Render(h1, identified, showHint).hint == Render(h2, identified, showHint).hint
  {
  }
}
