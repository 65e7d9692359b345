/**
  The project cards of the mission log (`MissionLog`): which tech chips the image
  overlay shows, the overflow badge, which links appear with which target and
  label, and the alternating row layout. Only these rules are modelled; markup
  and styling are not.
 */
module MissionLog {
  import opened Text
  import opened Catalog

  /** The overlay shows at most four chips. */
  const ChipLimit: nat := 4

  /** A link value counts only when it is present and not the empty string (JavaScript truthiness). */
  predicate Truthy(o: Option<string>) {
    o.Some? && o.value != ""
  }

  /** `project.links?.<field>` taken as a truthy test. */
  predicate HasLive(p: Project) { p.links.Some? && Truthy(p.links.value.live) }
  predicate HasGithub(p: Project) { p.links.Some? && Truthy(p.links.value.github) }
  predicate HasVideo(p: Project) { p.links.Some? && Truthy(p.links.value.video) }

  datatype Layout = Normal | Reversed

  /** An external link as rendered: its target and its label. */
  datatype Anchor = Anchor(href: string, caption: string)

  /** What the rules decide for one card. */
  datatype Card = Card(
    rowLabel: string,
    layout: Layout,
    chips: seq<string>,
    overflow: Option<nat>,
    tags: seq<string>,
    source: Option<string>,
    external: Option<Anchor>)

  /** `tech.slice(0, 4)`: the first four tech entries, or all when there are fewer. */
  function Chips(tech: seq<string>): (r: seq<string>)
    ensures |r| == if |tech| < ChipLimit then |tech| else ChipLimit
    ensures forall i :: 0 <= i < |r| ==> r[i] == tech[i]
  {
    if |tech| <= ChipLimit then tech else tech[..ChipLimit]
  }

  /** The `+N` badge: present exactly when more than four entries exist, counting those not shown. */
  function Overflow(tech: seq<string>): (r: Option<nat>)
    ensures r.Some? <==> |tech| > ChipLimit
    ensures r.Some? ==> |Chips(tech)| + r.value == |tech| && r.value > 0
  {
    if |tech| > ChipLimit then Some(|tech| - ChipLimit) else None
  }

  /** The badge's text, `+` followed by the count's canonical digits, which read back as the count. */
  function BadgeText(n: nat): (r: string)
    ensures |r| >= 2 && r[0] == '+'
    ensures n > 0 ==> r[1] != '0'
    ensures n == 0 ==> r == "+0"
    ensures forall i :: 1 <= i < |r| ==> IsDigit(r[i])
    ensures ParseDecimal(r[1..]) == n
  {
    var digits := Decimal(n);
    ParseDecimalOfDecimal(n);
    var r := "+" + digits;
    assert r[1..] == digits;
    r
  }

  /** Chips and badge together account for every tech entry exactly once, in order. */
  lemma ChipsAndBadgeCoverTech(tech: seq<string>)
    ensures Overflow(tech).None? ==> Chips(tech) == tech
    ensures Overflow(tech).Some? ==> Chips(tech) + tech[ChipLimit..] == tech && Overflow(tech).value == |tech[ChipLimit..]|
  {
  }

  /** The SOURCE link: the github URL when it is truthy. */
  function SourceLink(p: Project): (r: Option<string>)
    ensures r.Some? <==> HasGithub(p)
    ensures r.Some? ==> r == p.links.value.github
  {
    if HasGithub(p) then p.links.value.github else None
  }

  /**
    The second link: shown when live or video is truthy; `live || video` picks its
    target; its caption depends on the video field alone.
   */
  function ExternalLink(p: Project): (r: Option<Anchor>)
    ensures r.Some? <==> HasLive(p) || HasVideo(p)
    ensures r.Some? && HasLive(p) ==> r.value.href == p.links.value.live.value
    ensures r.Some? && !HasLive(p) ==> r.value.href == p.links.value.video.value
    ensures r.Some? ==> (r.value.caption == "VIDEO" <==> HasVideo(p))
    ensures r.Some? ==> (r.value.caption == "VIDEO" || r.value.caption == "DEMO")
  {
    if !(HasLive(p) || HasVideo(p)) then None
    else
      var l := p.links.value;
      var href := if HasLive(p) then l.live.value else l.video.value;
      Some(Anchor(href, if HasVideo(p) then "VIDEO" else "DEMO"))
  }

  /** A card with both a live and a video link points at the live URL yet is labelled VIDEO. */
  lemma LiveAndVideoMislabel(p: Project)
    requires HasLive(p) && HasVideo(p)
    ensures ExternalLink(p) == Some(Anchor(p.links.value.live.value, "VIDEO"))
  {
  }

  /** `index % 2 === 1` chooses the reversed row. */
  function RowLayout(index: nat): (r: Layout)
    ensures r == Reversed <==> index % 2 == 1
  {
    if index % 2 == 1 then Reversed else Normal
  }

  /** Consecutive rows alternate. */
  lemma RowsAlternate(index: nat)
    ensures RowLayout(index) != RowLayout(index + 1)
  {
  }

  /** Along any run of rows, neighbours have different layouts. */
  lemma LayoutsAlternate(n: nat)
    ensures forall i :: 0 <= i < n - 1 ==> RowLayout(i) != RowLayout(i + 1)
  {
    forall i | 0 <= i < n - 1 {
      RowsAlternate(i);
    }
  }

  /** The row marker `0{index + 1} //`: a literal zero before the one-based position. */
  function RowLabel(index: nat): (r: string)
    ensures |r| >= 5 && r[0] == '0' && r[|r| - 3..] == " //"
    ensures forall i :: 1 <= i < |r| - 3 ==> IsDigit(r[i])
    ensures ParseDecimal(r[1..|r| - 3]) == index + 1
    ensures r[1] != '0'
  {
    var digits := Decimal(index + 1);
    ParseDecimalOfDecimal(index + 1);
    var r := "0" + digits + " //";
    assert r[1..|r| - 3] == digits;
    r
  }

  /**
    One card: assembles the rules above for the project at position `index`; it
    adds no rule of its own.
   */
  function RenderCard(p: Project, index: nat): (c: Card)
    ensures c.chips == Chips(p.tech) && c.overflow == Overflow(p.tech) && c.tags == p.tech
    ensures c.source == SourceLink(p) && c.external == ExternalLink(p)
    ensures c.layout == RowLayout(index) && c.rowLabel == RowLabel(index)
    ensures c.tags == p.tech && c.chips == c.tags[..|c.chips|]
    ensures c.overflow.Some? <==> |c.tags| > ChipLimit
    ensures c.overflow.Some? ==> |c.chips| + c.overflow.value == |c.tags|
    ensures c.layout == Reversed <==> index % 2 == 1
    ensures c.external.Some? <==> HasLive(p) || HasVideo(p)
  {
    Card(RowLabel(index), RowLayout(index), Chips(p.tech), Overflow(p.tech), p.tech, SourceLink(p), ExternalLink(p))
  }

  /** The mission log: one card per project, in list order, the position fixing layout and marker. */
  function RenderLog(projects: seq<Project>): (r: seq<Card>)
    ensures |r| == |projects|
    ensures forall i :: 0 <= i < |r| ==> r[i] == RenderCard(projects[i], i)
    ensures forall i :: 0 <= i < |r| ==> r[i].tags == projects[i].tech
    ensures forall i :: 0 <= i < |r| - 1 ==> r[i].layout != r[i + 1].layout
  {
    var r := seq(|projects|, i requires 0 <= i < |projects| => RenderCard(projects[i], i));
    LayoutsAlternate(|r|);
    r
  }

  /** The card every shipped project shares: its SOURCE link, all tech as chips, no badge. */
  predicate PlainCard(c: Card, p: Project) {
    c.source.Some? && c.overflow == None && c.chips == p.tech
  }

  lemma ShippedCard0()
    ensures var c := RenderCard(Projects[0], 0);
      PlainCard(c, Projects[0]) && c.layout == Normal
      && c.external == Some(Anchor("https://sentinellai.netlify.app/", "DEMO"))
  {
  }

  lemma ShippedCard1()
    ensures var c := RenderCard(Projects[1], 1);
      PlainCard(c, Projects[1]) && c.layout == Reversed
      && c.external == Some(Anchor("https://youtu.be/IzPafU6Re-w", "VIDEO"))
  {
  }

  lemma ShippedCard2()
    ensures var c := RenderCard(Projects[2], 2);
      PlainCard(c, Projects[2]) && c.layout == Normal && c.external == None
  {
  }

  /**
    The shipped catalogue renders as: a DEMO link to the live site on the first
    card, a VIDEO link on the second, no second link on the third; every card has
    its SOURCE link and all four tech entries as chips with no badge.
   */
  lemma ShippedCards()
    ensures var cards := RenderLog(Projects);
      && |cards| == 3
      && cards[0].external == Some(Anchor("https://sentinellai.netlify.app/", "DEMO"))
      && cards[1].external == Some(Anchor("https://youtu.be/IzPafU6Re-w", "VIDEO"))
      && cards[2].external == None
      && (forall i :: 0 <= i < 3 ==> PlainCard(cards[i], Projects[i]))
      && cards[0].layout == Normal && cards[1].layout == Reversed && cards[2].layout == Normal
  {
    ShippedCard0();
    ShippedCard1();
    ShippedCard2();
  }
}
