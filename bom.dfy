/**
 The bill of materials derived from the tag counts (`calculateBOM`): eleven
 named quantities, each a linear formula over the counts or a multiple of
 one roll per ten panels, rounded up.
 */
module BillOfMaterials {
  import opened CellTypes

  /** The eleven keys of the bill of materials. */
  datatype Component =
    | HalfPortraitFrames
    | LateralFlashing
    | ScrewsBlack
    | EndClamp
    | MidClamp
    | EpdmPads
    | SealRoll
    | DcLead
    | DcLiveSticker
    | CableTies
    | Lead

  /** Every key, once each, in the order the calculator lists them. */
  const Components: seq<Component> := [
    HalfPortraitFrames, LateralFlashing, ScrewsBlack, EndClamp, MidClamp,
    EpdmPads, SealRoll, DcLead, DcLiveSticker, CableTies, Lead
  ]

  /** The key string under which the calculator reports each quantity. */
  function Name(k: Component): string
  {
    match k
    case HalfPortraitFrames => "GSE Half Portrait Frames"
    case LateralFlashing => "Lateral Flashing"
    case ScrewsBlack => "GSE Screws Black"
    case EndClamp => "GSE End Clamp"
    case MidClamp => "GSE Mid Clamp"
    case EpdmPads => "EPDM Pads"
    case SealRoll => "Compressed Seal Roll"
    case DcLead => "Pre Assembled DC Lead"
    case DcLiveSticker => "DC Live Sticker"
    case CableTies => "Cable Ties"
    case Lead => "Lead"
  }

  /** The position of a key in `Components`. */
  function ComponentIndex(k: Component): (i: nat)
    ensures i < |Components| && Components[i] == k
  {
    match k
    case HalfPortraitFrames => 0
    case LateralFlashing => 1
    case ScrewsBlack => 2
    case EndClamp => 3
    case MidClamp => 4
    case EpdmPads => 5
    case SealRoll => 6
    case DcLead => 7
    case DcLiveSticker => 8
    case CableTies => 9
    case Lead => 10
  }

  /** The bill of materials has exactly eleven keys, with distinct names. */
  lemma ElevenKeys()
    ensures |Components| == 11
    ensures forall k :: k in Components
    ensures forall i, j :: 0 <= i < j < |Components| ==> Components[i] != Components[j]
    ensures forall k, l :: k != l ==> Name(k) != Name(l)
  {
    forall k ensures k in Components {
      assert Components[ComponentIndex(k)] == k;
    }
  }

  /** One quantity per key. */
  datatype Bom = Bom(
    halfPortraitFrames: int,
    lateralFlashing: int,
    screwsBlack: int,
    endClamp: int,
    midClamp: int,
    epdmPads: int,
    sealRoll: int,
    dcLead: int,
    dcLiveSticker: int,
    cableTies: int,
    lead: int)

  /** The quantity reported under a key. */
  function Quantity(b: Bom, k: Component): int
  {
    match k
    case HalfPortraitFrames => b.halfPortraitFrames
    case LateralFlashing => b.lateralFlashing
    case ScrewsBlack => b.screwsBlack
    case EndClamp => b.endClamp
    case MidClamp => b.midClamp
    case EpdmPads => b.epdmPads
    case SealRoll => b.sealRoll
    case DcLead => b.dcLead
    case DcLiveSticker => b.dcLiveSticker
    case CableTies => b.cableTies
    case Lead => b.lead
  }

  /** Two bills of materials that agree on every key listed in `Components`
      are the same: the eleven keys make up the whole bill. */
  lemma ComponentsDetermineBom(b1: Bom, b2: Bom)
    requires forall i :: 0 <= i < |Components| ==> Quantity(b1, Components[i]) == Quantity(b2, Components[i])
    ensures b1 == b2
  {
    forall k ensures Quantity(b1, k) == Quantity(b2, k) {
      var i := ComponentIndex(k);
      assert Components[i] == k;
    }
    assert Quantity(b1, HalfPortraitFrames) == Quantity(b2, HalfPortraitFrames);
    assert Quantity(b1, LateralFlashing) == Quantity(b2, LateralFlashing);
    assert Quantity(b1, ScrewsBlack) == Quantity(b2, ScrewsBlack);
    assert Quantity(b1, EndClamp) == Quantity(b2, EndClamp);
    assert Quantity(b1, MidClamp) == Quantity(b2, MidClamp);
    assert Quantity(b1, EpdmPads) == Quantity(b2, EpdmPads);
    assert Quantity(b1, SealRoll) == Quantity(b2, SealRoll);
    assert Quantity(b1, DcLead) == Quantity(b2, DcLead);
    assert Quantity(b1, DcLiveSticker) == Quantity(b2, DcLiveSticker);
    assert Quantity(b1, CableTies) == Quantity(b2, CableTies);
    assert Quantity(b1, Lead) == Quantity(b2, Lead);
  }

  /** `Math.ceil(p / 10)` on an integer `p`: the least `q` with `p <= 10 * q`.
      Dafny's division rounds down for a positive divisor, for negative `p`
      too, so adding 9 first rounds up. */
  function CeilTenth(p: int): (q: int)
    ensures 10 * (q - 1) < p <= 10 * q
  {
    (p + 9) / 10
  }

  /** The eight counters the seal-roll family is computed from. */
  function PanelSum(c: CellTypesCount): int
  {
    c.singlePanel + c.topSinglePanel + c.bottomSinglePanel + c.endPanel
    + c.midPanel + c.middleMidPanel + c.topMidPanel + c.bottomMidPanel
  }

  /** `calculateBOM`. Beyond the formulas themselves: the end clamps equal the
      lateral flashing, both are twice the frames plus twice the end panels,
      and the DC sticker, DC lead and cable ties are one, two and five times
      the seal rolls, which are the panel sum divided by ten, rounded up. */
  function CalculateBOM(c: CellTypesCount): (b: Bom)
    ensures b.endClamp == b.lateralFlashing
    ensures b.endClamp == 2 * b.halfPortraitFrames + 2 * c.endPanel
    ensures b.dcLiveSticker == b.sealRoll
    ensures b.dcLead == 2 * b.sealRoll && b.cableTies == 5 * b.sealRoll
    ensures 10 * (b.sealRoll - 1) < PanelSum(c) <= 10 * b.sealRoll
  {
    Bom(
      halfPortraitFrames :=
        c.singlePanel * 2 + c.topSinglePanel * 2 + c.bottomSinglePanel * 2,
      lateralFlashing :=
        (c.singlePanel * 2 + c.topSinglePanel * 2 + c.bottomSinglePanel * 2 + c.endPanel) * 2,
      screwsBlack :=
        (c.singlePanel * 3 + c.topSinglePanel * 3 + c.bottomSinglePanel * 3 + c.endPanel * 3)
        + c.endPanel + c.midPanel,
      endClamp :=
        c.singlePanel * 4 + c.topSinglePanel * 4 + c.bottomSinglePanel * 4 + c.endPanel * 2,
      midClamp :=
        c.midPanel * 2 + c.middleMidPanel * 2 + c.topMidPanel * 2 + c.bottomMidPanel * 2,
      epdmPads := c.endPanel + c.midPanel,
      sealRoll := CeilTenth(PanelSum(c)),
      dcLead := CeilTenth(PanelSum(c)) * 2,
      dcLiveSticker := CeilTenth(PanelSum(c)),
      cableTies := CeilTenth(PanelSum(c)) * 5,
      lead :=
        c.singlePanel + c.bottomSinglePanel + c.centerSinglePanel
        + c.centerBottomPanel + c.bottomMidPanel + c.bottomEndPanel)
  }

  // ----- Properties of the derivation -----

  /** End clamps and lateral flashing always come in even numbers. */
  lemma ClampsEven(c: CellTypesCount)
    ensures CalculateBOM(c).endClamp % 2 == 0
    ensures CalculateBOM(c).lateralFlashing % 2 == 0
  {
    var b := CalculateBOM(c);
    assert b.endClamp == 2 * (b.halfPortraitFrames + c.endPanel);
  }

  /** For non-negative counts the seal roll, DC sticker, DC lead and cable ties
      are all zero exactly when the eight panel counters are all zero. */
  lemma SealRollFamilyZero(c: CellTypesCount)
    requires NonNegative(c)
    ensures var b := CalculateBOM(c);
      && (b.sealRoll == 0 <==> PanelSum(c) == 0)
      && (b.dcLiveSticker == 0 <==> PanelSum(c) == 0)
      && (b.dcLead == 0 <==> PanelSum(c) == 0)
      && (b.cableTies == 0 <==> PanelSum(c) == 0)
  {
    NonNegativeFields(c);
  }

  /** A count record with nothing but empty cells (every counter other than
      `EmptyCell` at zero) gives an all-zero bill of materials. */
  lemma BomOfZero(c: CellTypesCount)
    requires forall t :: t != EmptyCell ==> Get(c, t) == 0
    ensures forall k :: Quantity(CalculateBOM(c), k) == 0
  {
    assert Get(c, SinglePanel) == 0;
    assert Get(c, TopSinglePanel) == 0;
    assert Get(c, BottomSinglePanel) == 0;
    assert Get(c, EndPanel) == 0;
    assert Get(c, MidPanel) == 0;
    assert Get(c, MiddleMidPanel) == 0;
    assert Get(c, TopMidPanel) == 0;
    assert Get(c, BottomMidPanel) == 0;
    assert Get(c, CenterSinglePanel) == 0;
    assert Get(c, CenterBottomPanel) == 0;
    assert Get(c, BottomEndPanel) == 0;
    assert PanelSum(c) == 0;
  }

  /** When the four tags `TopSinglePanel`, `BottomSinglePanel`,
      `CenterSinglePanel` and `BottomEndPanel` are absent, the formulas
      shrink: frames are two per single panel, flashing and end clamps four
      per single panel and two per end panel, "Lead" counts single,
      centre-bottom and bottom-mid panels, and the seal rolls count six panel
      tags. */
  lemma BomWithoutUnusedTags(c: CellTypesCount)
    requires c.topSinglePanel == 0 && c.bottomSinglePanel == 0
    requires c.centerSinglePanel == 0 && c.bottomEndPanel == 0
    ensures var b := CalculateBOM(c);
      && b.halfPortraitFrames == 2 * c.singlePanel
      && b.lateralFlashing == 4 * c.singlePanel + 2 * c.endPanel
      && b.endClamp == 4 * c.singlePanel + 2 * c.endPanel
      && b.lead == c.singlePanel + c.centerBottomPanel + c.bottomMidPanel
      && b.sealRoll == CeilTenth(c.singlePanel + c.endPanel + c.midPanel
                                 + c.middleMidPanel + c.topMidPanel + c.bottomMidPanel)
  {
  }

  /** For non-negative counts every quantity is non-negative. */
  lemma BomNonNegative(c: CellTypesCount)
    requires NonNegative(c)
    ensures forall k :: Quantity(CalculateBOM(c), k) >= 0
  {
    NonNegativeFields(c);
  }

  /** Every counter of `c1` is at most the corresponding counter of `c2`. */
  predicate AtMost(c1: CellTypesCount, c2: CellTypesCount)
  {
    forall t :: Get(c1, t) <= Get(c2, t)
  }

  /** Each quantity is non-decreasing in each count. */
  lemma BomMonotone(c1: CellTypesCount, c2: CellTypesCount)
    requires AtMost(c1, c2)
    ensures forall k :: Quantity(CalculateBOM(c1), k) <= Quantity(CalculateBOM(c2), k)
  {
    AtMostFields(c1, c2);
    CeilTenthMonotone(PanelSum(c1), PanelSum(c2));
  }

  /** `AtMost`, field by field. */
  lemma AtMostFields(c1: CellTypesCount, c2: CellTypesCount)
    requires AtMost(c1, c2)
    ensures c1.singlePanel <= c2.singlePanel && c1.topSinglePanel <= c2.topSinglePanel
    ensures c1.bottomSinglePanel <= c2.bottomSinglePanel && c1.endPanel <= c2.endPanel
    ensures c1.midPanel <= c2.midPanel && c1.middleMidPanel <= c2.middleMidPanel
    ensures c1.topMidPanel <= c2.topMidPanel && c1.bottomMidPanel <= c2.bottomMidPanel
    ensures c1.centerSinglePanel <= c2.centerSinglePanel
    ensures c1.centerBottomPanel <= c2.centerBottomPanel
    ensures c1.bottomEndPanel <= c2.bottomEndPanel
  {
    assert Get(c1, SinglePanel) <= Get(c2, SinglePanel);
    assert Get(c1, TopSinglePanel) <= Get(c2, TopSinglePanel);
    assert Get(c1, BottomSinglePanel) <= Get(c2, BottomSinglePanel);
    assert Get(c1, EndPanel) <= Get(c2, EndPanel);
    assert Get(c1, MidPanel) <= Get(c2, MidPanel);
    assert Get(c1, MiddleMidPanel) <= Get(c2, MiddleMidPanel);
    assert Get(c1, TopMidPanel) <= Get(c2, TopMidPanel);
    assert Get(c1, BottomMidPanel) <= Get(c2, BottomMidPanel);
    assert Get(c1, CenterSinglePanel) <= Get(c2, CenterSinglePanel);
    assert Get(c1, CenterBottomPanel) <= Get(c2, CenterBottomPanel);
    assert Get(c1, BottomEndPanel) <= Get(c2, BottomEndPanel);
  }

  lemma CeilTenthMonotone(p: int, q: int)
    requires p <= q
    ensures CeilTenth(p) <= CeilTenth(q)
  {
  }

  /** The coefficient of each counter in each linear quantity: what one more
      cell of tag `t` adds to component `k`. The seal-roll family is not
      linear and has no coefficients. */
  function Weight(k: Component, t: CellType): int
  {
    var single := t == SinglePanel || t == TopSinglePanel || t == BottomSinglePanel;
    match k
    case HalfPortraitFrames => if single then 2 else 0
    case LateralFlashing => if single then 4 else if t == EndPanel then 2 else 0
    case ScrewsBlack =>
      if single then 3 else if t == EndPanel then 4 else if t == MidPanel then 1 else 0
    case EndClamp => if single then 4 else if t == EndPanel then 2 else 0
    case MidClamp =>
      if t == MidPanel || t == MiddleMidPanel || t == TopMidPanel || t == BottomMidPanel
      then 2 else 0
    case EpdmPads => if t == EndPanel || t == MidPanel then 1 else 0
    case Lead =>
      if t == SinglePanel || t == BottomSinglePanel || t == CenterSinglePanel
         || t == CenterBottomPanel || t == BottomMidPanel || t == BottomEndPanel
      then 1 else 0
    case SealRoll => 0
    case DcLead => 0
    case DcLiveSticker => 0
    case CableTies => 0
  }

  /** The components given by a linear formula over the counts. */
  predicate IsLinear(k: Component)
  {
    !(k.SealRoll? || k.DcLead? || k.DcLiveSticker? || k.CableTies?)
  }

  /** The eight tags the seal-roll family counts. */
  predicate IsPanelTag(t: CellType)
  {
    || t == SinglePanel || t == TopSinglePanel || t == BottomSinglePanel || t == EndPanel
    || t == MidPanel || t == MiddleMidPanel || t == TopMidPanel || t == BottomMidPanel
  }

  /** One more cell of tag `t` adds exactly `Weight(k, t)` to each linear
      quantity, and one more to the panel sum exactly when `t` is one of the
      eight panel tags. With `BomOfZero` this pins every quantity down: "Lead",
      for one, is the sum of exactly six counters. */
  lemma BomIncrement(c: CellTypesCount, t: CellType)
    ensures forall k :: IsLinear(k) ==>
      Quantity(CalculateBOM(Inc(c, t)), k) == Quantity(CalculateBOM(c), k) + Weight(k, t)
    ensures PanelSum(Inc(c, t)) == PanelSum(c) + (if IsPanelTag(t) then 1 else 0)
  {
    var d := Inc(c, t);
    IncFields(c, t, d);
    forall k | IsLinear(k)
      ensures Quantity(CalculateBOM(d), k) == Quantity(CalculateBOM(c), k) + Weight(k, t)
    {
      LinearAt(c, d, t, k);
    }
  }

  lemma LinearAt(c: CellTypesCount, d: CellTypesCount, t: CellType, k: Component)
    requires IsLinear(k)
    requires d.singlePanel == c.singlePanel + (if t == SinglePanel then 1 else 0)
    requires d.midPanel == c.midPanel + (if t == MidPanel then 1 else 0)
    requires d.endPanel == c.endPanel + (if t == EndPanel then 1 else 0)
    requires d.middleMidPanel == c.middleMidPanel + (if t == MiddleMidPanel then 1 else 0)
    requires d.topMidPanel == c.topMidPanel + (if t == TopMidPanel then 1 else 0)
    requires d.topSinglePanel == c.topSinglePanel + (if t == TopSinglePanel then 1 else 0)
    requires d.bottomMidPanel == c.bottomMidPanel + (if t == BottomMidPanel then 1 else 0)
    requires d.bottomEndPanel == c.bottomEndPanel + (if t == BottomEndPanel then 1 else 0)
    requires d.bottomSinglePanel == c.bottomSinglePanel + (if t == BottomSinglePanel then 1 else 0)
    requires d.centerSinglePanel == c.centerSinglePanel + (if t == CenterSinglePanel then 1 else 0)
    requires d.centerBottomPanel == c.centerBottomPanel + (if t == CenterBottomPanel then 1 else 0)
    ensures Quantity(CalculateBOM(d), k) == Quantity(CalculateBOM(c), k) + Weight(k, t)
  {
  }
}
