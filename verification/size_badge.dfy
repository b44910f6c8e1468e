/**
  The size badges (page and table variants): a model size, in billions of parameters, is shown
  with one icon and one background colour chosen by three guarded entries.
*/
module SizeTiers {

  datatype Tier = Small | Medium | Large

  datatype Icon = SmartphoneIcon | CpuIcon | GpuIcon

  /** The background colour class of each tier. */
  datatype Palette = Palette(small: string, medium: string, large: string)

  /** What the badge shows: the background classes `cn` keeps and the icons rendered. */
  datatype Badge = Badge(background: seq<string>, icons: seq<Icon>)

  const MediumFrom: real := 4.0
  const LargeFrom: real := 40.0

  /** The reference classification: below 4, from 4 up to 40, and 40 or more. */
  function TierOf(size: real): Tier {
    if size < MediumFrom then Small
    else if size < LargeFrom then Medium
    else Large
  }

  function Rank(t: Tier): nat {
    match t
    case Small => 0
    case Medium => 1
    case Large => 2
  }

  function ColourOf(p: Palette, t: Tier): string {
    match t
    case Small => p.small
    case Medium => p.medium
    case Large => p.large
  }

  function IconOf(t: Tier): Icon {
    match t
    case Small => SmartphoneIcon
    case Medium => CpuIcon
    case Large => GpuIcon
  }

  /**
    The badge as the component writes it: three independent guards for the background and
    three for the icon. Exactly one guard of each trio holds, and both pick the same tier.
  */
  function Render(size: real, p: Palette): (b: Badge)
    ensures b.background == [ColourOf(p, TierOf(size))]
    ensures b.icons == [IconOf(TierOf(size))]
  {
    Badge(
      (if size < 4.0 then [p.small] else [])
        + (if size >= 4.0 && size < 40.0 then [p.medium] else [])
        + (if size >= 40.0 then [p.large] else []),
      (if size < 4.0 then [SmartphoneIcon] else [])
        + (if size >= 4.0 && size < 40.0 then [CpuIcon] else [])
        + (if size >= 40.0 then [GpuIcon] else []))
  }

  /** A larger size is never in a lower tier. */
  lemma TierMonotone(a: real, b: real)
    requires a <= b
    ensures Rank(TierOf(a)) <= Rank(TierOf(b))
  {
  }

  /** The tiers partition the sizes; 4 opens the middle tier and 40 the top one. */
  lemma TierBoundaries(size: real)
    ensures TierOf(size) == Small <==> size < 4.0
    ensures TierOf(size) == Medium <==> 4.0 <= size < 40.0
    ensures TierOf(size) == Large <==> 40.0 <= size
  {
  }
}

/** `components/size-badge.tsx`: emerald, amber and rose backgrounds. */
module SizeBadge {
  import opened SizeTiers

  const Colours: Palette := Palette("bg-emerald-400/10", "bg-amber-400/10", "bg-rose-400/10")

  function Show(size: real): (b: Badge)
    ensures |b.background| == 1 && |b.icons| == 1
    ensures b.background[0] == ColourOf(Colours, TierOf(size))
    ensures b.icons[0] == IconOf(TierOf(size))
  {
    Render(size, Colours)
  }
}

/** `components/table/size-badge.tsx`: the same tiers with green, yellow and red backgrounds. */
module TableSizeBadge {
  import opened SizeTiers
  import SizeBadge

  const Colours: Palette := Palette("bg-green-400/10", "bg-yellow-400/10", "bg-red-400/10")

  function Show(size: real): (b: Badge)
    ensures |b.background| == 1 && |b.icons| == 1
    ensures b.background[0] == ColourOf(Colours, TierOf(size))
    ensures b.icons[0] == IconOf(TierOf(size))
  {
    Render(size, Colours)
  }

  /** Both badges put every size in the same tier: the same icon, and colours differing only in name. */
  lemma AgreesWithPageBadge(size: real)
    ensures Show(size).icons == SizeBadge.Show(size).icons
    ensures Show(size).background != SizeBadge.Show(size).background
  {
  }
}
