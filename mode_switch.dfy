/** Values of the editor mode toggle: the two display modes, the four visual
    statuses an item can take, the status pair the toggle derives from the
    hover flag and the active mode, the defaults applied to absent page
    metadata, and the attributes the toggle and its two items render. */
module ModeSwitch {

  datatype Option<T> = None | Some(value: T)

  /** The view a document is displayed in. */
  datatype Mode = Page | Edgeless

  /** The animation intent of one item of the toggle. */
  datatype Status = Stretch | Normal | Shrink | Hidden

  /** The status of the left (Paper) and the right (Edgeless) item. */
  datatype RadioItemStatus = RadioItemStatus(left: Status, right: Status)

  /** The two items of the toggle: Paper on the left, Edgeless on the right. */
  datatype Side = Left | Right

  /** The mode an item switches to when clicked, and marks as active. */
  function SideMode(side: Side): (m: Mode)
    ensures (m == Page) == (side == Left)
  {
    match side
    case Left => Page
    case Right => Edgeless
  }

  /** The item that shows a given mode. */
  function ModeSide(mode: Mode): (side: Side)
    ensures SideMode(side) == mode
  {
    match mode
    case Page => Left
    case Edgeless => Right
  }

  function Opposite(side: Side): (o: Side)
    ensures o != side
  {
    match side
    case Left => Right
    case Right => Left
  }

  function StatusOf(s: RadioItemStatus, side: Side): Status
  {
    match side
    case Left => s.left
    case Right => s.right
  }

  /** The status pair of the toggle, derived from whether the pointer hovers
      the control and which mode is active. The item of the active mode is
      stretched while hovering and shrunk otherwise; the other item is normal
      while hovering and hidden otherwise. */
  function ModifyRadioItemStatus(isHover: bool, mode: Mode): (r: RadioItemStatus)
    // the active item and the other one, per hover flag
    ensures StatusOf(r, ModeSide(mode)) == (if isHover then Stretch else Shrink)
    ensures StatusOf(r, Opposite(ModeSide(mode))) == (if isHover then Normal else Hidden)
    // not hovering: exactly one item is visible, and it is the active one
    ensures !isHover ==> ((r.left == Hidden) != (r.right == Hidden))
    ensures !isHover ==> (r.left != Hidden <==> mode == Page)
    // hovering: nothing is hidden and exactly one item is stretched, the active one
    ensures isHover ==> r.left != Hidden && r.right != Hidden
    ensures isHover ==> ((r.left == Stretch) != (r.right == Stretch))
    ensures isHover ==> (r.left == Stretch <==> mode == Page)
    // the pair determines the hover flag and the mode it was derived from
    ensures isHover <==> (r.left != Hidden && r.right != Hidden)
    ensures mode == Page <==> r.left in {Stretch, Shrink}
  {
    RadioItemStatus(
      if isHover then (if mode == Page then Stretch else Normal)
      else (if mode == Page then Shrink else Hidden),
      if isHover then (if mode == Edgeless then Stretch else Normal)
      else (if mode == Edgeless then Shrink else Hidden))
  }

  /** The status pair set on pointer-enter of one item: that item stretched,
      the other one normal, whatever the mode. */
  function Hovered(side: Side): (r: RadioItemStatus)
    ensures StatusOf(r, side) == Stretch && StatusOf(r, Opposite(side)) == Normal
  {
    match side
    case Left => RadioItemStatus(Stretch, Normal)
    case Right => RadioItemStatus(Normal, Stretch)
  }

  /** The derivation and the enter overrides are the same pair exactly when the
      pointer hovers the control and enters the item of the active mode. */
  lemma HoveredMatchesDerivation(isHover: bool, mode: Mode, side: Side)
    ensures Hovered(side) == ModifyRadioItemStatus(isHover, mode) <==> isHover && side == ModeSide(mode)
  {
  }

  /** Page metadata as supplied by the current-page source: every field may be
      missing. */
  datatype PageMeta = PageMeta(trash: Option<bool>, mode: Option<Mode>, id: Option<string>)

  /** The metadata the toggle works with once the defaults are applied. */
  datatype ResolvedMeta = ResolvedMeta(trashed: bool, mode: Mode, id: string)

  /** Absent metadata, or an absent field, falls back to mode Page, id "" and
      not trashed; a trash flag counts only when it is true. */
  function ResolveMeta(meta: Option<PageMeta>): (r: ResolvedMeta)
    ensures meta.None? ==> r == ResolvedMeta(false, Page, "")
    ensures r.trashed <==> meta.Some? && meta.value.trash == Some(true)
    ensures r.mode == Edgeless <==> meta.Some? && meta.value.mode == Some(Edgeless)
    ensures meta.Some? && meta.value.mode.Some? ==> r.mode == meta.value.mode.value
    ensures meta.Some? && meta.value.id.Some? ==> r.id == meta.value.id.value
    ensures (meta.None? || meta.value.id.None?) ==> r.id == ""
  {
    match meta
    case None => ResolvedMeta(false, Page, "")
    case Some(m) =>
      ResolvedMeta(
        m.trash == Some(true),
        match m.mode { case Some(md) => md case None => Page },
        match m.id { case Some(i) => i case None => "" })
  }

  /** One child of a rendered item: the icon, or the label. */
  datatype Part =
    | Icon(shrink: bool, isLeft: bool, active: bool)
    | Label(text: string, shrink: bool, isLeft: bool)

  /** A rendered item: its accessible title, its active flag and status, its
      test marker if any, and its children in display order. */
  datatype ItemView = ItemView(title: string, active: bool, status: Status, testId: Option<string>, children: seq<Part>)

  /** The item renderer: the icon comes before the label on the left item and
      after it on the right one; the label shrinks unless the item is
      stretched, the icon only when the item is shrunk; the icon is told
      whether the item is active. */
  function AnimateRadioItem(active: bool, status: Status, caption: string, isLeft: bool, testId: Option<string>): (r: ItemView)
    ensures r.title == caption && r.active == active && r.status == status && r.testId == testId
    ensures |r.children| == 2 && r.children[0].Icon? != r.children[1].Icon?
    ensures r.children[0].Icon? <==> isLeft
    ensures forall p :: p in r.children && p.Icon? ==>
      p.shrink == (status == Shrink) && p.isLeft == isLeft && p.active == active
    ensures forall p :: p in r.children && p.Label? ==>
      p.shrink == (status != Stretch) && p.isLeft == isLeft && p.text == caption
  {
    var icon := Icon(status == Shrink, isLeft, active);
    var text := Label(caption, status != Stretch, isLeft);
    ItemView(caption, active, status, testId, if isLeft then [icon, text] else [text, icon])
  }

  /** The rendered toggle. */
  datatype SwitchView = SwitchView(
    testId: string, shrink: bool, disabled: bool,
    paper: ItemView, middleLineHidden: bool, edgeless: ItemView)

  const SwitchTestId := "editor-mode-switcher"
  const EdgelessItemTestId := "switch-edgeless-item"

  /** What the toggle renders for the hover flag, the page metadata and the
      stored status pair. */
  function RenderSwitch(isHover: bool, meta: Option<PageMeta>, status: RadioItemStatus): (r: SwitchView)
    ensures r.disabled <==> meta.Some? && meta.value.trash == Some(true)
    ensures r.shrink == !isHover && r.middleLineHidden == !isHover
    // exactly one item is active: the one of the current mode
    ensures r.paper.active <==> ResolveMeta(meta).mode == Page
    ensures r.edgeless.active <==> ResolveMeta(meta).mode == Edgeless
    ensures r.paper.active != r.edgeless.active
    ensures r.paper.status == status.left && r.edgeless.status == status.right
    ensures r.paper.title == "Paper" && r.edgeless.title == "Edgeless"
    // the icons sit on the outer edges of the control
    ensures |r.paper.children| == 2 && r.paper.children[0].Icon?
    ensures |r.edgeless.children| == 2 && r.edgeless.children[1].Icon?
    ensures r.testId == SwitchTestId
    ensures r.paper.testId.None? && r.edgeless.testId == Some(EdgelessItemTestId)
  {
    var m := ResolveMeta(meta);
    SwitchView(
      SwitchTestId, !isHover, m.trashed,
      AnimateRadioItem(m.mode == Page, status.left, "Paper", true, None),
      !isHover,
      AnimateRadioItem(m.mode == Edgeless, status.right, "Edgeless", false, Some(EdgelessItemTestId)))
  }
}
