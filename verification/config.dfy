/** The per-construct configuration of a synthetic block: the fields a
    construct-specific subclass sets through the block's setters. */
module BlockConfig {
  import opened Options
  import opened Syntax
  import opened Layout

  /** A null hold-together array and null entries in it are both allowed and
      both mean "no group"; a null custom spacing table means "no rule". */
  datatype Config = Config(
    multiLine: bool,
    leftBreak: Option<Kind>,
    rightBreak: Option<Kind>,
    alignmentKeys: set<AlignKey>,
    lineBreaking: set<Kind>,
    indentedChildren: set<Kind>,
    holdTogetherGroups: Option<seq<Option<set<Kind>>>>,
    customSpacing: Option<map<(Kind, Kind), Spacing>>,
    commentGroupIndent: Indent,
    commentGroupAlign: Option<Alignment>)

  /** The field initialisers of the block: single-line mode, no markers, no
      keys, no line-breaking or indented kinds, the comments as the one
      hold-together group, no custom spacing, and a leading comment group
      with no indent and no alignment. */
  const Default: Config := Config(
    false, None, None, {}, {}, {}, Some([Some(Comments)]), None, NoIndent, None)

  /** `k` is the opening marker of a multiline construct; never true outside
      multiline mode. */
  function IsLeftBreak(cfg: Config, k: Kind): (r: bool)
    ensures !cfg.multiLine || cfg.leftBreak.None? ==> !r
    ensures cfg.multiLine && cfg.leftBreak.Some? ==> (r <==> k == cfg.leftBreak.value)
  {
    cfg.multiLine && cfg.leftBreak == Some(k)
  }

  /** `k` is the closing marker of a multiline construct; never true outside
      multiline mode. */
  function IsRightBreak(cfg: Config, k: Kind): (r: bool)
    ensures !cfg.multiLine || cfg.rightBreak.None? ==> !r
    ensures cfg.multiLine && cfg.rightBreak.Some? ==> (r <==> k == cfg.rightBreak.value)
  {
    cfg.multiLine && cfg.rightBreak == Some(k)
  }

  /** A block of kind `k`, as a left sibling, expects a line break after it. */
  predicate WantsToBreakLine(cfg: Config, k: Kind) {
    k in cfg.lineBreaking
  }

  /** The custom spacing rule registered for the pair, if any. */
  function CustomSpacingBetween(cfg: Config, k1: Kind, k2: Kind): (r: Option<Spacing>)
    ensures r.Some? <==> cfg.customSpacing.Some? && (k1, k2) in cfg.customSpacing.value
    ensures r.Some? ==> r.value == cfg.customSpacing.value[(k1, k2)]
  {
    match cfg.customSpacing
    case None => None
    case Some(table) => if (k1, k2) in table then Some(table[(k1, k2)]) else None
  }
}
