/** The section-heading element: its node, construction from arguments,
    field reflection, the default show rule, guard removal and the default
    styling applied by finalize. Content is modelled as a small tree of the
    node kinds the heading touches. */
module Heading {
  import opened Wrappers
  import opened Styles

  /** Identifies a show-rule recipe. */
  type RecipeId = nat

  const USIZE_LIMIT: int := 0x1_0000_0000_0000_0000
  const I64_MAX: int := 0x7FFF_FFFF_FFFF_FFFF

  /** `NonZeroUsize` on a 64-bit target. */
  type Level = n: int | 1 <= n < USIZE_LIMIT witness 1

  /** A packed node together with the recipes that are guarded (disabled)
      for it. */
  datatype Content = Content(node: Node, guards: set<RecipeId>)

  /** The node kinds a heading produces or holds. `Text` stands for every
      other kind of content, which a heading only carries around. */
  datatype Node =
    | Text(text: string)
    | Heading(heading: HeadingNode)
    | Block(body: Content)
    | Styled(child: Content, styles: Properties)

  /** The values field reflection hands out. */
  datatype Value = Int(i: int) | ContentValue(content: Content)

  /** Wraps a node into content that carries no guards. */
  function Pack(node: Node): Content
  {
    Content(node, {})
  }

  /** `usize as i64`: the two's-complement reinterpretation of the low 64
      bits. */
  function AsI64(n: int): (r: int)
    requires 0 <= n < USIZE_LIMIT
    ensures -I64_MAX - 1 <= r <= I64_MAX
    ensures (r - n) % USIZE_LIMIT == 0
    ensures n <= I64_MAX <==> r == n
  {
    if n <= I64_MAX then n else n - USIZE_LIMIT
  }

  /** Removes the guard `id` from `c` and from every node inside it; a
      heading's parts are unguarded through its own `UnguardParts`. */
  function Unguard(c: Content, id: RecipeId): (r: Content)
    ensures r.guards == c.guards - {id}
    ensures c.node.Text? ==> r.node == c.node
    ensures c.node.Heading? ==> r.node.Heading? && r.node.heading.level == c.node.heading.level
    ensures c.node.Block? ==> r.node.Block?
    ensures c.node.Styled? ==> r.node.Styled? && r.node.styles == c.node.styles
    decreases c
  {
    match c.node
    case Text(_) => Content(c.node, c.guards - {id})
    case Heading(h) => Content(h.UnguardParts(id).node, c.guards - {id})
    case Block(body) => Content(Block(Unguard(body, id)), c.guards - {id})
    case Styled(child, styles) => Content(Styled(Unguard(child, id), styles), c.guards - {id})
  }

  /** `realized.styled_with_map(map)`: the content wrapped in a style scope
      holding the map's properties. */
  function StyledWithMap(realized: Content, props: Properties): Content
  {
    Pack(Styled(realized, props))
  }

  /** Every guard anywhere in the tree. */
  function GuardsOf(c: Content): set<RecipeId>
    decreases c
  {
    match c.node
    case Text(_) => c.guards
    case Heading(h) => c.guards + GuardsOf(h.body)
    case Block(body) => c.guards + GuardsOf(body)
    case Styled(child, _) => c.guards + GuardsOf(child)
  }

  /** The tree with every guard set emptied: what is left when guards are
      ignored. */
  function Erase(c: Content): Content
    decreases c
  {
    match c.node
    case Text(_) => Pack(c.node)
    case Heading(h) => Pack(Heading(HeadingNode(h.level, Erase(h.body))))
    case Block(body) => Pack(Block(Erase(body)))
    case Styled(child, styles) => Pack(Styled(Erase(child), styles))
  }

  /** Unguarding removes `id` from the whole tree and no other guard. */
  lemma {:induction false} UnguardGuards(c: Content, id: RecipeId)
    ensures GuardsOf(Unguard(c, id)) == GuardsOf(c) - {id}
    decreases c
  {
    match c.node
    case Text(_) =>
    case Heading(h) => UnguardGuards(h.body, id);
    case Block(body) => UnguardGuards(body, id);
    case Styled(child, _) => UnguardGuards(child, id);
  }

  /** Unguarding changes nothing but guards. */
  lemma {:induction false} UnguardErase(c: Content, id: RecipeId)
    ensures Erase(Unguard(c, id)) == Erase(c)
    decreases c
  {
    match c.node
    case Text(_) =>
    case Heading(h) => UnguardErase(h.body, id);
    case Block(body) => UnguardErase(body, id);
    case Styled(child, _) => UnguardErase(child, id);
  }

  /** Content that does not carry the guard anywhere is left as it is. */
  lemma {:induction false} UnguardAbsent(c: Content, id: RecipeId)
    requires id !in GuardsOf(c)
    ensures Unguard(c, id) == c
    decreases c
  {
    match c.node
    case Text(_) =>
    case Heading(h) => UnguardAbsent(h.body, id);
    case Block(body) => UnguardAbsent(body, id);
    case Styled(child, _) => UnguardAbsent(child, id);
  }

  /** Text size of the default heading style (`Em::new` of 1.4, 1.2, 1.0). */
  function HeadingSize(level: Level): (size: Em)
    ensures size == Em(140) <==> level == 1
    ensures size == Em(120) <==> level == 2
    ensures level >= 3 <==> size == Em(100)
  {
    Em(match level
       case 1 => 140
       case 2 => 120
       case _ => 100)
  }

  /** Strong spacing above a heading (1.8em for the top level, 1.44em below it). */
  function HeadingAbove(level: Level): (above: Em)
    ensures above == Em(180) <==> level == 1
    ensures level != 1 <==> above == Em(144)
  {
    if level == 1 then Em(180) else Em(144)
  }

  /** Strong spacing below every heading (0.66em). */
  const HEADING_BELOW: Em := Em(66)

  /** The style map finalize builds for a heading of the given level: the
      four sets applied in order to an empty map. */
  function DefaultStyles(level: Level): (props: Properties)
    ensures |props| == 4
    ensures props[0].key == TextSize && props[1].key == TextWeight
    ensures props[2].key == BlockAbove && props[3].key == BlockBelow
  {
    var m0: Properties := [];
    var m1 := Put(m0, TextSize, Size(HeadingSize(level)));
    PutAt(m1, TextWeight, Weight(BOLD), 1);
    var m2 := Put(m1, TextWeight, Weight(BOLD));
    PutAt(m2, BlockAbove, Spacing(VSpace(HeadingAbove(level), true)), 2);
    var m3 := Put(m2, BlockAbove, Spacing(VSpace(HeadingAbove(level), true)));
    PutAt(m3, BlockBelow, Spacing(VSpace(HEADING_BELOW, true)), 3);
    Put(m3, BlockBelow, Spacing(VSpace(HEADING_BELOW, true)))
  }

  /** The default heading style, key by key: size 1.4/1.2/1.0em by level,
      bold weight, strong spacing of 1.8em (level 1) or 1.44em above and
      strong spacing of 0.66em below. */
  lemma DefaultStylesTable(level: Level)
    ensures Lookup(DefaultStyles(level), TextSize) ==
      Some(Size(Em(if level == 1 then 140 else if level == 2 then 120 else 100)))
    ensures Lookup(DefaultStyles(level), TextWeight) == Some(Weight(FontWeight(700)))
    ensures Lookup(DefaultStyles(level), BlockAbove) ==
      Some(Spacing(VSpace(Em(if level == 1 then 180 else 144), true)))
    ensures Lookup(DefaultStyles(level), BlockBelow) == Some(Spacing(VSpace(Em(66), true)))
  {
    var m0: Properties := [];
    var size, weight := Size(HeadingSize(level)), Weight(BOLD);
    var above, below := Spacing(VSpace(HeadingAbove(level), true)), Spacing(VSpace(HEADING_BELOW, true));
    var m1 := Put(m0, TextSize, size);
    var m2 := Put(m1, TextWeight, weight);
    var m3 := Put(m2, BlockAbove, above);
    PutLookupSame(m3, BlockBelow, below);
    PutLookupSame(m2, BlockAbove, above);
    PutLookupOther(m3, BlockBelow, below, BlockAbove);
    PutLookupSame(m1, TextWeight, weight);
    PutLookupOther(m2, BlockAbove, above, TextWeight);
    PutLookupOther(m3, BlockBelow, below, TextWeight);
    PutLookupSame(m0, TextSize, size);
    PutLookupOther(m1, TextWeight, weight, TextSize);
    PutLookupOther(m2, BlockAbove, above, TextSize);
    PutLookupOther(m3, BlockBelow, below, TextSize);
  }

  /** The default heading style sets these four keys and nothing else, each
      once. */
  lemma DefaultStylesKeys(level: Level)
    ensures KeysOf(DefaultStyles(level)) == {TextSize, TextWeight, BlockAbove, BlockBelow}
    ensures |DefaultStyles(level)| == 4 && UniqueKeys(DefaultStyles(level))
  {
  }

  /** The text size never grows with the level and never drops below 1em. */
  lemma HeadingSizeOrder(l1: Level, l2: Level)
    requires l1 <= l2
    ensures HeadingSize(l2).hundredths <= HeadingSize(l1).hundredths
    ensures 100 <= HeadingSize(l2).hundredths <= 140
  {
  }

  datatype HeadingNode = HeadingNode(level: Level, body: Content)
  {
    /** Builds a heading from its arguments: the body is required, the
        level defaults to 1. */
    static function Construct(body: Option<Content>, level: Option<Level>): (r: Result<Content>)
      ensures r.Err? <==> body.None?
      ensures body.None? ==> r.error == MissingArgument("body")
      ensures r.Ok? ==> r.value.guards == {} && r.value.node.Heading?
      ensures r.Ok? ==> r.value.node.heading.body == body.value
      ensures r.Ok? && level.None? ==> r.value.node.heading.level == 1
      ensures r.Ok? && level.Some? ==> r.value.node.heading.level == level.value
    {
      match body
      case None => Err(MissingArgument("body"))
      case Some(b) => Ok(Pack(Heading(HeadingNode(level.GetOr(1), b))))
    }

    /** Field reflection: `level` as an integer, `body` as content, nothing
        else. */
    function Field(name: string): (r: Option<Value>)
      ensures r.Some? <==> name == "level" || name == "body"
      ensures name == "level" ==> r == Some(Int(AsI64(level)))
      ensures name == "body" ==> r == Some(ContentValue(body))
    {
      match name
      case "level" => Some(Int(AsI64(level)))
      case "body" => Some(ContentValue(body))
      case _ => None
    }

    /** The heading with only its body unguarded, repacked. */
    function UnguardParts(id: RecipeId): (r: Content)
      ensures r.guards == {} && r.node.Heading?
      ensures r.node.heading.level == level
      ensures r.node.heading.body == Unguard(body, id)
      decreases this
    {
      Pack(Heading(HeadingNode(level, Unguard(body, id))))
    }

    /** The default show rule: the body in a block. */
    function Show(): (r: Result<Content>)
      ensures r.Ok? && r.value.guards == {}
      ensures r.value.node == Block(body)
    {
      Ok(Pack(Block(body)))
    }

    /** Wraps the realized content in the default heading style, chosen by
        this heading's level alone. */
    method Finalize(realized: Content) returns (r: Result<Content>)
      ensures r == Ok(StyledWithMap(realized, DefaultStyles(level)))
    {
      var size := HeadingSize(level);
      var above := HeadingAbove(level);
      var below := HEADING_BELOW;
      var styles := new StyleMap();
      styles.Set(TextSize, Size(size));
      styles.Set(TextWeight, Weight(BOLD));
      styles.Set(BlockAbove, Spacing(VSpace(above, true)));
      styles.Set(BlockBelow, Spacing(VSpace(below, true)));
      r := Ok(StyledWithMap(realized, styles.props));
    }
  }

  /** A field read on a constructed heading gives back the arguments: the
      body, and the level (1 when omitted) whenever it fits an `i64`. */
  lemma ConstructThenField(body: Content, level: Option<Level>, name: string)
    requires level.Some? ==> level.value <= I64_MAX
    ensures HeadingNode.Construct(Some(body), level).Ok?
    ensures var h := HeadingNode.Construct(Some(body), level).value.node.heading;
      h.Field(name) ==
        if name == "level" then Some(Int(level.GetOr(1)))
        else if name == "body" then Some(ContentValue(body))
        else None
  {
  }

  /** Every level an `i64` can hold reads back as itself, so at least 1. */
  lemma FieldLevelPositive(h: HeadingNode)
    requires h.level <= I64_MAX
    ensures h.Field("level") == Some(Int(h.level)) && h.Field("level").value.i >= 1
  {
  }

  /** Levels above `i64::MAX` read back negative through the `as i64` cast. */
  lemma FieldLevelWraps(h: HeadingNode)
    requires h.level > I64_MAX
    ensures h.Field("level").Some? && h.Field("level").value.i < 0
  {
  }

  /** Unguarding a heading's parts removes the guard from its body and
      changes nothing else about the heading. */
  lemma UnguardPartsOnlyBody(h: HeadingNode, id: RecipeId)
    ensures id !in GuardsOf(h.UnguardParts(id))
    ensures GuardsOf(h.UnguardParts(id)) == GuardsOf(h.body) - {id}
    ensures Erase(h.UnguardParts(id)) == Erase(Pack(Heading(h)))
  {
    UnguardGuards(h.body, id);
    UnguardErase(h.body, id);
  }

  /** The show result depends on the body only, never on the level. */
  lemma ShowIgnoresLevel(h1: HeadingNode, h2: HeadingNode)
    requires h1.body == h2.body
    ensures h1.Show() == h2.Show()
  {
  }
}
