/** Page blocks written back as JSON, with the names of the Bot API: what is written for a block renders
    as that block; a value renders as no other, except for what its uploads give; and only the types of
    the Bot API render as anything. */
module BlockWriting {
  import opened Basics
  import opened RichTree
  import opened RichBlocks
  import opened TextWriting
  import ListLabels

  /** The choices a writer has: how texts and numbers are spelled, how yes and no are, whether a default
      alignment is left out, and which of the two names a sound goes by. */
  datatype Manner = Manner(spelling: Spelling, yes: Json, no: Json, defaults: bool, voice: bool)

  predicate IsManner(w: Manner) {
    && TextOf(w.spelling.aside).Ok?
    && SaysYes(w.yes) && !SaysYes(w.no)
  }

  predicate SaysYes(v: Json) { v == Bool(true) || (v.Str? && (v.text == "true" || v.text == "1")) }

  function Flag(b: bool, w: Manner): Json { if b then w.yes else w.no }

  /** A text stands for what strconv.ParseFloat makes of it. */
  function Real(f: real, w: Manner): Json {
    if w.spelling.numbersAsText then Str("", Some(f)) else Num(None, Some(f))
  }

  function Words(t: RichText, w: Manner): Json { Written(t, w.spelling) }

  function Count(n: int, w: Manner): Json { Number(n, w.spelling) }

  function WrittenCaption(c: Caption, w: Manner): Json {
    if c == Caption(TextEmpty, TextEmpty) && w.defaults then Null
    else Obj(map["text" := Words(c.text, w), "credit" := Words(c.credit, w)])
  }

  function WrittenAlign(c: Cell, w: Manner): Json {
    if w.defaults && c.align == (if c.header then Center else Left) then Null
    else Text(match c.align case Left => "left" case Center => "center" case Right => "right")
  }

  function WrittenVerticalAlign(c: Cell, w: Manner): Json {
    if w.defaults && c.valign.Middle? then Null
    else Text(match c.valign case Top => "top" case Middle => "middle" case Bottom => "bottom")
  }

  function WrittenSpan(span: Option<int>, w: Manner): Json { if span.Some? then Count(span.value, w) else if w.defaults then Null else Count(0, w) }

  function WrittenCell(c: Cell, w: Manner): Json {
    Obj(map["text" := Words(c.text, w), "is_header" := Flag(c.header, w), "colspan" := WrittenSpan(c.colspan, w),
            "rowspan" := WrittenSpan(c.rowspan, w), "align" := WrittenAlign(c, w), "valign" := WrittenVerticalAlign(c, w)])
  }

  function WrittenRow(r: Row, w: Manner): Json {
    Arr(seq(|r.cells|, i requires 0 <= i < |r.cells| => WrittenCell(r.cells[i], w)))
  }

  function WrittenRows(rows: seq<Row>, w: Manner): Json {
    Arr(seq(|rows|, i requires 0 <= i < |rows| => WrittenRow(rows[i], w)))
  }

  /** A whole accuracy; one below a metre is written as half a metre. */
  function WrittenAccuracy(accuracy: Option<int>, w: Manner): Json {
    if accuracy.None? then (if w.defaults then Null else Real(0.0, w))
    else Real(if accuracy.value == 0 then 0.5 else accuracy.value as real, w)
  }

  function WrittenItem(item: ListItem, w: Manner): Json {
    if item.listType == "" then
      Obj(map["blocks" := WrittenAll(item.blocks, w), "has_checkbox" := Flag(item.checkbox, w),
              "is_checked" := Flag(item.checked, w)])
    else
      Obj(map["blocks" := WrittenAll(item.blocks, w), "has_checkbox" := Flag(item.checkbox, w),
              "is_checked" := Flag(item.checked, w), "type" := Text(item.listType), "value" := Count(item.number, w)])
  }

  function WrittenItems(items: seq<ListItem>, w: Manner): Json {
    Arr(seq(|items|, i requires 0 <= i < |items| => WrittenItem(items[i], w)))
  }

  function WrittenAll(bs: seq<PageBlock>, w: Manner): Json {
    Arr(seq(|bs|, i requires 0 <= i < |bs| => WrittenBlock(bs[i], w)))
  }

  function WrittenMedia(kind: string, spoiler: bool, w: Manner): Json {
    Obj(map["type" := Text(kind), "has_spoiler" := Flag(spoiler, w)])
  }

  function WrittenBlock(b: PageBlock, w: Manner): Json {
    match b
    case Paragraph(t) => Obj(map["type" := Text("paragraph"), "text" := Words(t, w)])
    case Footer(t) => Obj(map["type" := Text("footer"), "text" := Words(t, w)])
    case Thinking(t) => Obj(map["type" := Text("thinking"), "text" := Words(t, w)])
    case Preformatted(t, language) =>
      Obj(map["type" := Text("pre"), "text" := Words(t, w), "language" := Text(language)])
    case Divider => Obj(map["type" := Text("divider")])
    case Math(source) => Obj(map["type" := Text("mathematical_expression"), "expression" := Text(source)])
    case Anchor(name) => Obj(map["type" := Text("anchor"), "name" := Text(name)])
    case BulletList(items) => Obj(map["type" := Text("list"), "items" := WrittenItems(items, w)])
    case OrderedList(items) => Obj(map["type" := Text("list"), "items" := WrittenItems(items, w)])
    case Blockquote(blocks, credit) =>
      Obj(map["type" := Text("blockquote"), "blocks" := WrittenAll(blocks, w), "credit" := Words(credit, w)])
    case Pullquote(t, credit) =>
      Obj(map["type" := Text("pullquote"), "text" := Words(t, w), "credit" := Words(credit, w)])
    case Collage(blocks, caption) =>
      Obj(map["type" := Text("collage"), "blocks" := WrittenAll(blocks, w), "caption" := WrittenCaption(caption, w)])
    case Slideshow(blocks, caption) =>
      Obj(map["type" := Text("slideshow"), "blocks" := WrittenAll(blocks, w), "caption" := WrittenCaption(caption, w)])
    case Table(bordered, striped, title, rows) =>
      Obj(map["type" := Text("table"), "is_bordered" := Flag(bordered, w), "is_striped" := Flag(striped, w),
              "caption" := Words(title, w), "cells" := WrittenRows(rows, w)])
    case Details(open, title, blocks) =>
      Obj(map["type" := Text("details"), "is_open" := Flag(open, w), "summary" := Words(title, w),
              "blocks" := WrittenAll(blocks, w)])
    case Map(latitude, longitude, accuracy, zoom, width, height, caption) =>
      Obj(map["type" := Text("map"),
              "location" := Obj(map["latitude" := Real(latitude, w), "longitude" := Real(longitude, w),
                                    "horizontal_accuracy" := WrittenAccuracy(accuracy, w)]),
              "zoom" := Count(zoom, w), "width" := Count(width, w), "height" := Count(height, w),
              "caption" := WrittenCaption(caption, w)])
    case Photo(spoiler, _, caption) =>
      Obj(map["type" := Text("photo"), "photo" := WrittenMedia("photo", spoiler, w), "caption" := WrittenCaption(caption, w)])
    case Video(looped, spoiler, _, caption) =>
      if looped then
        Obj(map["type" := Text("animation"), "animation" := WrittenMedia("animation", spoiler, w),
                "caption" := WrittenCaption(caption, w)])
      else
        Obj(map["type" := Text("video"), "video" := WrittenMedia("video", spoiler, w), "caption" := WrittenCaption(caption, w)])
    case Audio(_, caption) =>
      if w.voice then
        Obj(map["type" := Text("voice_note"), "voice_note" := WrittenMedia("voice_note", false, w),
                "caption" := WrittenCaption(caption, w)])
      else
        Obj(map["type" := Text("audio"), "audio" := WrittenMedia("audio", false, w), "caption" := WrittenCaption(caption, w)])
  }

  // ---- What can be sent ----

  predicate GoodCaption(c: Caption) { WellFormed(c.text) && WellFormed(c.credit) }

  predicate GoodSpan(span: Option<int>) { span.Some? ==> span.value > 0 }

  predicate GoodCell(c: Cell) { WellFormed(c.text) && GoodSpan(c.colspan) && GoodSpan(c.rowspan) }

  predicate GoodRow(r: Row) { forall i | 0 <= i < |r.cells| :: GoodCell(r.cells[i]) }

  predicate GoodRows(rows: seq<Row>) { forall i | 0 <= i < |rows| :: GoodRow(rows[i]) }

  /** A checked item has a checkbox; an item of an ordered list has the label of its number and type. */
  predicate GoodItem(item: ListItem) {
    && GoodAll(item.blocks) && (item.checked ==> item.checkbox)
    && if item.listType == "" then item.number == 0 && item.numeral == ""
       else item.listType in {"1", "a", "A", "i", "I"} && item.numeral == ListLabels.Label(item.number, item.listType)
  }

  /** A list has items, all of its own kind. */
  predicate GoodItems(items: seq<ListItem>, ordered: bool) {
    items != [] && forall i | 0 <= i < |items| :: GoodItem(items[i]) && (items[i].listType != "" <==> ordered)
  }

  predicate GoodAll(bs: seq<PageBlock>) { forall i | 0 <= i < |bs| :: GoodBlock(bs[i]) }

  predicate GoodBlock(b: PageBlock) {
    match b
    case Paragraph(t) => WellFormed(t)
    case Footer(t) => WellFormed(t)
    case Thinking(t) => WellFormed(t)
    case Preformatted(t, _) => WellFormed(t)
    case BulletList(items) => GoodItems(items, false)
    case OrderedList(items) => GoodItems(items, true)
    case Blockquote(blocks, credit) => GoodAll(blocks) && WellFormed(credit)
    case Pullquote(t, credit) => WellFormed(t) && WellFormed(credit)
    case Collage(blocks, caption) => GoodAll(blocks) && GoodCaption(caption)
    case Slideshow(blocks, caption) => GoodAll(blocks) && GoodCaption(caption)
    case Table(_, _, title, rows) => WellFormed(title) && GoodRows(rows)
    case Details(_, title, blocks) => WellFormed(title) && GoodAll(blocks)
    case Map(_, _, accuracy, _, _, _, caption) => (accuracy.Some? ==> accuracy.value >= 0) && GoodCaption(caption)
    case Photo(_, _, caption) => GoodCaption(caption)
    case Video(_, _, _, caption) => GoodCaption(caption)
    case Audio(_, caption) => GoodCaption(caption)
    case _ => true
  }

  // ---- What is written renders as what it was written for ----

  lemma FlagReads(o: Json, key: string, b: bool, w: Manner)
    requires o.Obj? && IsManner(w) && Field(o, key) == Flag(b, w)
    ensures JsonBool(o, key) == b
  {
  }

  lemma CountReads(o: Json, key: string, n: int, w: Manner)
    requires o.Obj? && Field(o, key) == Count(n, w)
    ensures JsonInt(o, key) == n
  {
    hide JsonInt64, Number;
    NumberReads(o, key, n, w.spelling);
  }

  lemma WordsRead(o: Json, key: string, t: RichText, w: Manner)
    requires o.Obj? && IsManner(w) && WellFormed(t) && Field(o, key) == Words(t, w)
    ensures RendersText(o, key, t)
  {
    hide Written, TextOf, WellFormed;
    TextRoundTrip(t, w.spelling);
  }

  lemma CaptionReads(c: Caption, w: Manner)
    requires IsManner(w) && GoodCaption(c)
    ensures RendersCaption(WrittenCaption(c, w), c)
  {
    hide Words, RendersText, IsManner, WellFormed;
    var o := WrittenCaption(c, w);
    if o.Obj? {
      WordsRead(o, "text", c.text, w);
      WordsRead(o, "credit", c.credit, w);
    }
  }

  lemma SpanReads(o: Json, key: string, span: Option<int>, w: Manner)
    requires o.Obj? && GoodSpan(span) && Field(o, key) == WrittenSpan(span, w)
    ensures Positive(JsonInt(o, key)) == span
  {
    hide Count;
    if span.Some? || !w.defaults { CountReads(o, key, if span.Some? then span.value else 0, w); }
  }

  lemma AlignReads(o: Json, c: Cell, w: Manner)
    requires o.Obj? && Field(o, "align") == WrittenAlign(c, w) && Field(o, "valign") == WrittenVerticalAlign(c, w)
    ensures AlignOf(JsonString(o, "align"), c.header) == Some(c.align)
    ensures VerticalAlignOf(JsonString(o, "valign")) == Some(c.valign)
  {
  }

  lemma CellReads(c: Cell, w: Manner)
    requires IsManner(w) && GoodCell(c)
    ensures RendersCell(WrittenCell(c, w), c)
  {
    hide Words, RendersText, IsManner, WellFormed, Flag, WrittenSpan, GoodSpan, WrittenAlign, WrittenVerticalAlign, AlignOf,
      VerticalAlignOf, JsonBool, JsonInt, JsonString, Positive;
    var o := WrittenCell(c, w);
    WordsRead(o, "text", c.text, w);
    FlagReads(o, "is_header", c.header, w);
    SpanReads(o, "colspan", c.colspan, w);
    SpanReads(o, "rowspan", c.rowspan, w);
    AlignReads(o, c, w);
  }

  lemma RowsRead(rows: seq<Row>, w: Manner)
    requires IsManner(w) && GoodRows(rows)
    ensures RendersRows(WrittenRows(rows, w), rows)
  {
    hide IsManner, RendersCell, WrittenCell, GoodCell;
    forall i | 0 <= i < |rows| ensures RendersRow(WrittenRow(rows[i], w), rows[i]) {
      forall j | 0 <= j < |rows[i].cells| ensures RendersCell(WrittenCell(rows[i].cells[j], w), rows[i].cells[j]) {
        CellReads(rows[i].cells[j], w);
      }
    }
  }

  lemma TextTypesRead()
    ensures BlockKindNamed("paragraph") == AsParagraph && BlockKindNamed("footer") == AsFooter
    ensures BlockKindNamed("thinking") == AsThinking && BlockKindNamed("pre") == AsPre
    ensures BlockKindNamed("divider") == AsDivider && BlockKindNamed("mathematical_expression") == AsMath
    ensures BlockKindNamed("anchor") == AsAnchor && BlockKindNamed("pullquote") == AsPullquote
  {
  }

  lemma FrameTypesRead()
    ensures BlockKindNamed("list") == AsList && BlockKindNamed("blockquote") == AsBlockquote
    ensures BlockKindNamed("collage") == AsCollage && BlockKindNamed("slideshow") == AsSlideshow
    ensures BlockKindNamed("table") == AsTable && BlockKindNamed("details") == AsDetails
    ensures BlockKindNamed("map") == AsMap
  {
  }

  lemma MediaTypesRead()
    ensures BlockKindNamed("photo") == AsPhoto && BlockKindNamed("video") == AsVideo
    ensures BlockKindNamed("animation") == AsAnimation
    ensures BlockKindNamed("audio") == AsAudio && BlockKindNamed("voice_note") == AsAudio
  {
  }

  predicate IsTextual(b: PageBlock) { b.Paragraph? || b.Footer? || b.Thinking? || b.Preformatted? || b.Pullquote? }

  predicate IsPlain(b: PageBlock) { b.Divider? || b.Math? || b.Anchor? }

  lemma PlainReads(b: PageBlock, w: Manner)
    requires IsPlain(b)
    ensures RendersBlock(WrittenBlock(b, w), b)
  {
    hide BlockKindNamed;
    TextTypesRead();
  }

  lemma TextualReads(b: PageBlock, w: Manner)
    requires IsManner(w) && GoodBlock(b) && IsTextual(b)
    ensures RendersBlock(WrittenBlock(b, w), b)
  {
    hide Words, RendersText, IsManner, WellFormed, BlockKindNamed;
    TextTypesRead();
    var o := WrittenBlock(b, w);
    WordsRead(o, "text", b.text, w);
    if b.Pullquote? { WordsRead(o, "credit", b.credit, w); }
  }

  lemma MapReads(b: PageBlock, w: Manner)
    requires IsManner(w) && GoodBlock(b) && b.Map?
    ensures RendersBlock(WrittenBlock(b, w), b)
  {
    hide Count, RendersCaption, WrittenCaption, IsManner, GoodCaption, BlockKindNamed, JsonInt, WrittenAccuracy, AccuracyOf;
    assert BlockKindNamed("map") == AsMap by { FrameTypesRead(); }
    var o := WrittenBlock(b, w);
    CountReads(o, "zoom", b.zoom, w);
    CountReads(o, "width", b.width, w);
    CountReads(o, "height", b.height, w);
    AccuracyReads(Field(o, "location"), b.accuracy, w);
    CaptionReads(b.caption, w);
  }

  lemma AccuracyReads(o: Json, accuracy: Option<int>, w: Manner)
    requires o.Obj? && Field(o, "horizontal_accuracy") == WrittenAccuracy(accuracy, w)
    requires accuracy.Some? ==> accuracy.value >= 0
    ensures AccuracyOf(o) == accuracy
  {
  }

  lemma PhotoReads(b: PageBlock, w: Manner)
    requires IsManner(w) && GoodBlock(b) && b.Photo?
    ensures RendersBlock(WrittenBlock(b, w), b)
  {
    hide Flag, RendersCaption, WrittenCaption, IsManner, GoodCaption, BlockKindNamed, JsonBool;
    assert BlockKindNamed("photo") == AsPhoto by { MediaTypesRead(); }
    var o := WrittenBlock(b, w);
    FlagReads(Field(o, JsonString(o, "type")), "has_spoiler", b.spoiler, w);
    CaptionReads(b.caption, w);
  }

  lemma VideoReads(b: PageBlock, w: Manner)
    requires IsManner(w) && GoodBlock(b) && b.Video?
    ensures RendersBlock(WrittenBlock(b, w), b)
  {
    hide Flag, RendersCaption, WrittenCaption, IsManner, GoodCaption, BlockKindNamed, JsonBool;
    assert BlockKindNamed("video") == AsVideo && BlockKindNamed("animation") == AsAnimation by { MediaTypesRead(); }
    var o := WrittenBlock(b, w);
    FlagReads(Field(o, JsonString(o, "type")), "has_spoiler", b.spoiler, w);
    CaptionReads(b.caption, w);
  }

  lemma AudioReads(b: PageBlock, w: Manner)
    requires IsManner(w) && GoodBlock(b) && b.Audio?
    ensures RendersBlock(WrittenBlock(b, w), b)
  {
    hide Flag, RendersCaption, WrittenCaption, IsManner, GoodCaption, BlockKindNamed, JsonBool;
    assert BlockKindNamed(if w.voice then "voice_note" else "audio") == AsAudio by { MediaTypesRead(); }
    var o := WrittenBlock(b, w);
    CaptionReads(b.caption, w);
  }

  lemma TableReads(b: PageBlock, w: Manner)
    requires IsManner(w) && GoodBlock(b) && b.Table?
    ensures RendersBlock(WrittenBlock(b, w), b)
  {
    hide Flag, Words, RendersText, RendersRows, WrittenRows, IsManner, WellFormed, GoodRows, BlockKindNamed, JsonBool;
    assert BlockKindNamed("table") == AsTable by { FrameTypesRead(); }
    var o := WrittenBlock(b, w);
    FlagReads(o, "is_bordered", b.bordered, w);
    FlagReads(o, "is_striped", b.striped, w);
    WordsRead(o, "caption", b.title, w);
    RowsRead(b.rows, w);
  }

  lemma {:induction false} AllRead(bs: seq<PageBlock>, w: Manner)
    requires IsManner(w) && GoodAll(bs)
    ensures RendersBlocks(WrittenAll(bs, w), bs)
    decreases bs, 1
  {
    hide IsManner, RendersBlock, WrittenBlock, GoodBlock;
    forall i | 0 <= i < |bs| ensures RendersBlock(WrittenBlock(bs[i], w), bs[i]) { BlockReads(bs[i], w); }
  }

  lemma {:induction false} ItemReads(item: ListItem, w: Manner)
    requires IsManner(w) && GoodItem(item)
    ensures RendersItem(WrittenItem(item, w), item)
    decreases item
  {
    hide Flag, Count, RendersBlocks, WrittenAll, IsManner, GoodAll, JsonBool, JsonInt, ListLabels.Label;
    var o := WrittenItem(item, w);
    AllRead(item.blocks, w);
    FlagReads(o, "has_checkbox", item.checkbox, w);
    FlagReads(o, "is_checked", item.checked, w);
    if item.listType != "" { CountReads(o, "value", item.number, w); }
  }

  lemma {:induction false} ListReads(b: PageBlock, w: Manner)
    requires IsManner(w) && GoodBlock(b) && (b.BulletList? || b.OrderedList?)
    ensures RendersBlock(WrittenBlock(b, w), b)
    decreases b, 0
  {
    hide IsManner, RendersItem, WrittenItem, GoodItem, BlockKindNamed;
    assert BlockKindNamed("list") == AsList by { FrameTypesRead(); }
    forall i | 0 <= i < |b.items| ensures RendersItem(WrittenItem(b.items[i], w), b.items[i]) { ItemReads(b.items[i], w); }
  }

  predicate IsFrame(b: PageBlock) { b.Blockquote? || b.Collage? || b.Slideshow? }

  lemma {:induction false} FrameReads(b: PageBlock, w: Manner)
    requires IsManner(w) && GoodBlock(b) && IsFrame(b)
    ensures RendersBlock(WrittenBlock(b, w), b)
    decreases b, 0
  {
    hide Flag, Words, RendersText, RendersCaption, WrittenCaption, GoodCaption, RendersBlocks, WrittenAll, GoodAll, IsManner,
      WellFormed, BlockKindNamed, JsonBool;
    FrameTypesRead();
    var o := WrittenBlock(b, w);
    AllRead(b.blocks, w);
    match b
    case Blockquote(_, credit) => WordsRead(o, "credit", credit, w);
    case Collage(_, caption) => CaptionReads(caption, w);
    case Slideshow(_, caption) => CaptionReads(caption, w);
  }

  lemma {:induction false} DetailsRead(b: PageBlock, w: Manner)
    requires IsManner(w) && GoodBlock(b) && b.Details?
    ensures RendersBlock(WrittenBlock(b, w), b)
    decreases b, 0
  {
    hide Flag, Words, RendersText, RendersBlocks, WrittenAll, GoodAll, IsManner, WellFormed, BlockKindNamed, JsonBool;
    assert BlockKindNamed("details") == AsDetails by { FrameTypesRead(); }
    var o := WrittenBlock(b, w);
    AllRead(b.blocks, w);
    FlagReads(o, "is_open", b.open, w);
    WordsRead(o, "summary", b.title, w);
  }

  /** Every block that can be sent renders what is written for it, however it is spelled. */
  lemma {:induction false} BlockReads(b: PageBlock, w: Manner)
    requires IsManner(w) && GoodBlock(b)
    ensures RendersBlock(WrittenBlock(b, w), b)
    decreases b, 1
  {
    hide IsManner, GoodBlock, RendersBlock, WrittenBlock;
    if IsTextual(b) { TextualReads(b, w); }
    else if IsPlain(b) { PlainReads(b, w); }
    else if b.Map? { MapReads(b, w); }
    else if b.Photo? { PhotoReads(b, w); }
    else if b.Video? { VideoReads(b, w); }
    else if b.Audio? { AudioReads(b, w); }
    else if b.Table? { TableReads(b, w); }
    else if IsFrame(b) { FrameReads(b, w); }
    else if b.Details? { DetailsRead(b, w); }
    else { ListReads(b, w); }
  }

  // ---- A value renders as one block, and only what can be sent ----

  /** The same, except for which photos and documents the uploads gave. */
  predicate Alike(b: PageBlock, c: PageBlock) {
    match b
    case Photo(spoiler, _, caption) => c.Photo? && c.spoiler == spoiler && c.caption == caption
    case Video(looped, spoiler, _, caption) => c.Video? && c.looped == looped && c.spoiler == spoiler && c.caption == caption
    case Audio(_, caption) => c.Audio? && c.caption == caption
    case BulletList(items) => c.BulletList? && AlikeItems(items, c.items)
    case OrderedList(items) => c.OrderedList? && AlikeItems(items, c.items)
    case Blockquote(blocks, credit) => c.Blockquote? && AlikeAll(blocks, c.blocks) && c.credit == credit
    case Collage(blocks, caption) => c.Collage? && AlikeAll(blocks, c.blocks) && c.caption == caption
    case Slideshow(blocks, caption) => c.Slideshow? && AlikeAll(blocks, c.blocks) && c.caption == caption
    case Details(open, title, blocks) => c.Details? && c.open == open && c.title == title && AlikeAll(blocks, c.blocks)
    case _ => b == c
  }

  predicate AlikeAll(bs: seq<PageBlock>, cs: seq<PageBlock>) {
    |bs| == |cs| && forall i | 0 <= i < |bs| :: Alike(bs[i], cs[i])
  }

  predicate AlikeItems(items: seq<ListItem>, others: seq<ListItem>) {
    |items| == |others| && forall i | 0 <= i < |items| ::
      AlikeAll(items[i].blocks, others[i].blocks) && items[i].(blocks := []) == others[i].(blocks := [])
  }

  lemma OneCaption(v: Json, c: Caption, d: Caption)
    requires RendersCaption(v, c) && RendersCaption(v, d)
    ensures c == d && GoodCaption(c)
  {
    hide TextOf;
    if v.Obj? {
      TextIsWellFormed(Field(v, "text"));
      TextIsWellFormed(Field(v, "credit"));
    }
  }

  lemma OneText(v: Json, key: string, t: RichText, u: RichText)
    requires v.Obj? && RendersText(v, key, t) && RendersText(v, key, u)
    ensures t == u && WellFormed(t)
  {
    hide TextOf, WellFormed;
    TextIsWellFormed(Field(v, key));
  }

  lemma OneCell(v: Json, c: Cell, d: Cell)
    requires RendersCell(v, c) && RendersCell(v, d)
    ensures c == d && GoodCell(c)
  {
    hide RendersText, WellFormed, AlignOf, VerticalAlignOf, JsonInt, JsonBool, JsonString;
    OneText(v, "text", c.text, d.text);
  }

  lemma OneRow(v: Json, r: Row, q: Row)
    requires RendersRow(v, r) && RendersRow(v, q)
    ensures r == q && GoodRow(r)
  {
    hide RendersCell, GoodCell;
    forall i | 0 <= i < |r.cells| ensures r.cells[i] == q.cells[i] && GoodCell(r.cells[i]) {
      OneCell(v.items[i], r.cells[i], q.cells[i]);
    }
    assert r.cells == q.cells;
  }

  lemma OneTable(v: Json, rows: seq<Row>, others: seq<Row>)
    requires RendersRows(v, rows) && RendersRows(v, others)
    ensures rows == others && GoodRows(rows)
  {
    hide RendersRow, GoodRow;
    forall i | 0 <= i < |rows| ensures rows[i] == others[i] && GoodRow(rows[i]) { OneRow(v.items[i], rows[i], others[i]); }
  }

  lemma {:induction false} OneRendering(v: Json, bs: seq<PageBlock>, cs: seq<PageBlock>)
    requires RendersBlocks(v, bs) && RendersBlocks(v, cs)
    ensures AlikeAll(bs, cs) && GoodAll(bs)
    decreases if v.Null? then 0 else 1, v, 4
  {
    hide RendersBlock, Alike, GoodBlock;
    if v.Arr? {
      forall i | 0 <= i < |bs| ensures Alike(bs[i], cs[i]) && GoodBlock(bs[i]) { OneBlock(v.items[i], bs[i], cs[i]); }
    }
  }

  lemma {:induction false} OneItem(v: Json, item: ListItem, other: ListItem)
    requires RendersItem(v, item) && RendersItem(v, other)
    ensures AlikeAll(item.blocks, other.blocks) && item.(blocks := []) == other.(blocks := []) && GoodItem(item)
    decreases if v.Null? then 0 else 1, v, 3
  {
    hide RendersBlocks, AlikeAll, GoodAll, ListLabels.Label, JsonBool, JsonInt, JsonString;
    OneRendering(Field(v, "blocks"), item.blocks, other.blocks);
  }

  lemma {:induction false} OneList(v: Json, b: PageBlock, c: PageBlock)
    requires IsList(b) && IsList(c) && RendersItems(v, b.items) && RendersItems(v, c.items)
    ensures Alike(b, c) && GoodBlock(b)
    decreases if v.Null? then 0 else 1, v, 4
  {
    hide RendersItem, GoodItem, AlikeAll;
    forall i | 0 <= i < |b.items|
      ensures AlikeAll(b.items[i].blocks, c.items[i].blocks) && b.items[i].(blocks := []) == c.items[i].(blocks := [])
      ensures GoodItem(b.items[i])
    {
      OneItem(v.items[i], b.items[i], c.items[i]);
    }
    assert b.items[0].(blocks := []).listType == c.items[0].(blocks := []).listType;
  }

  lemma OneTextual(v: Json, b: PageBlock, c: PageBlock)
    requires RendersBlock(v, b) && RendersBlock(v, c)
    requires BlockKindOf(v) in {AsParagraph, AsFooter, AsThinking, AsPre, AsPullquote}
    ensures Alike(b, c) && GoodBlock(b)
  {
    hide BlockKindOf, RendersText, RendersCaption, RendersRows, RendersItems, RendersBlocks, AlikeAll, GoodAll, GoodRows,
      GoodCaption, WellFormed, IsList, JsonBool, JsonString, JsonInt, AccuracyOf;
    OneText(v, "text", b.text, c.text);
    if b.Pullquote? { OneText(v, "credit", b.credit, c.credit); }
  }

  lemma OneMedia(v: Json, b: PageBlock, c: PageBlock)
    requires RendersBlock(v, b) && RendersBlock(v, c) && IsMedia(BlockKindOf(v))
    ensures Alike(b, c) && GoodBlock(b)
  {
    hide BlockKindOf, RendersText, RendersCaption, RendersRows, RendersItems, RendersBlocks, AlikeAll, GoodAll, GoodRows,
      GoodCaption, WellFormed, IsList, JsonBool, JsonString, JsonInt, AccuracyOf;
    OneCaption(Field(v, "caption"), b.caption, c.caption);
  }

  lemma OneMap(v: Json, b: PageBlock, c: PageBlock)
    requires RendersBlock(v, b) && RendersBlock(v, c) && BlockKindOf(v).AsMap?
    ensures Alike(b, c) && GoodBlock(b)
  {
    hide BlockKindOf, RendersText, RendersCaption, RendersRows, RendersItems, RendersBlocks, AlikeAll, GoodAll, GoodRows,
      GoodCaption, WellFormed, IsList, JsonBool, JsonString, JsonInt, AccuracyOf;
    OneCaption(Field(v, "caption"), b.caption, c.caption);
    AccuracyIsGood(Field(v, "location"));
  }

  lemma {:induction false} OneFrame(v: Json, b: PageBlock, c: PageBlock)
    requires RendersBlock(v, b) && RendersBlock(v, c)
    requires BlockKindOf(v) in {AsBlockquote, AsCollage, AsSlideshow, AsDetails}
    ensures Alike(b, c) && GoodBlock(b)
    decreases if v.Null? then 0 else 1, v, 1
  {
    hide BlockKindOf, RendersText, RendersCaption, RendersRows, RendersItems, RendersBlocks, AlikeAll, GoodAll, GoodRows,
      GoodCaption, WellFormed, IsList, JsonBool, JsonString, JsonInt, AccuracyOf;
    OneRendering(Field(v, "blocks"), b.blocks, c.blocks);
    match BlockKindOf(v)
    case AsBlockquote => OneText(v, "credit", b.credit, c.credit);
    case AsDetails => OneText(v, "summary", b.title, c.title);
    case AsCollage => OneCaption(Field(v, "caption"), b.caption, c.caption);
    case AsSlideshow => OneCaption(Field(v, "caption"), b.caption, c.caption);
  }

  /** A value renders as one block only, up to what its uploads gave, and as nothing that could not be
      sent. */
  lemma {:induction false} OneBlock(v: Json, b: PageBlock, c: PageBlock)
    requires RendersBlock(v, b) && RendersBlock(v, c)
    ensures Alike(b, c) && GoodBlock(b)
    decreases if v.Null? then 0 else 1, v, 2
  {
    hide BlockKindOf, RendersText, RendersCaption, RendersRows, RendersItems, RendersBlocks, AlikeAll, GoodAll, GoodRows,
      GoodCaption, WellFormed, IsList, JsonBool, JsonString, JsonInt, AccuracyOf;
    var kind := BlockKindOf(v);
    if kind in {AsParagraph, AsFooter, AsThinking, AsPre, AsPullquote} { OneTextual(v, b, c); }
    else if IsMedia(kind) { OneMedia(v, b, c); }
    else if kind.AsMap? { OneMap(v, b, c); }
    else if kind in {AsBlockquote, AsCollage, AsSlideshow, AsDetails} { OneFrame(v, b, c); }
    else if kind.AsList? { OneList(Field(v, "items"), b, c); }
    else if kind.AsTable? {
      OneText(v, "caption", b.title, c.title);
      OneTable(Field(v, "cells"), b.rows, c.rows);
    }
  }

  /** The alignments of the Bot API; any other is an error. */
  lemma OnlyTheseAlignments(align: string, header: bool)
    ensures AlignOf(align, header).Some? <==> align in {"", "left", "center", "right"}
    ensures VerticalAlignOf(align).Some? <==> align in {"", "top", "middle", "bottom"}
  {
  }

  lemma AccuracyIsGood(location: Json)
    requires location.Obj?
    ensures AccuracyOf(location).Some? ==> AccuracyOf(location).value >= 0
  {
  }

  /** The types of blocks of the Bot API; nothing else renders as anything. */
  lemma OnlyTheseTypes(v: Json, b: PageBlock)
    requires RendersBlock(v, b)
    ensures v.Obj? && JsonString(v, "type") in {
      "paragraph", "footer", "thinking", "pre", "divider", "mathematical_expression", "anchor", "list", "blockquote",
      "pullquote", "collage", "slideshow", "table", "details", "map", "photo", "video", "animation", "audio", "voice_note"}
  {
    hide RendersText, RendersCaption, RendersRows, RendersItems, RendersBlocks, RendersMap, RendersMedia, IsList, JsonBool, JsonString;
  }
}
