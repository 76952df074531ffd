/** Rich messages: the JSON they are given as, the page blocks they are sent as, and what it means
    for the one to render the other. */
module RichTree {
  import opened Basics
  import opened Decimal

  /** A parsed JSON value. A number comes with the int64 it is read as (or none) and the float64; a
      string with the float64 that strconv.ParseFloat makes of it. */
  datatype Json =
    | Null
    | Bool(bool)
    | Num(integer: Option<int>, float: Option<real>)
    | Str(text: string, parsed: Option<real>)
    | Arr(items: seq<Json>)
    | Obj(fields: map<string, Json>)

  datatype Result<+T> = Ok(value: T) | Err

  /** A missing member reads as null. */
  function Field(o: Json, key: string): (v: Json)
    requires o.Obj?
    ensures v.Null? || v < o
  {
    if key in o.fields then o.fields[key] else Null
  }

  function JsonString(o: Json, key: string): string
    requires o.Obj?
  {
    var v := Field(o, key); if v.Str? then v.text else ""
  }

  function JsonBool(o: Json, key: string): bool
    requires o.Obj?
  {
    match Field(o, key)
    case Bool(b) => b
    case Str(s, _) => s == "true" || s == "1"
    case _ => false
  }

  predicate IsInt64(n: int) { -0x8000_0000_0000_0000 <= n < 0x8000_0000_0000_0000 }

  function JsonInt64(o: Json, key: string): Option<int>
    requires o.Obj?
  {
    match Field(o, key)
    case Num(n, _) => n
    case Str(s, _) => (var n := ParseInt(s); if n.Some? && IsInt64(n.value) then n else None)
    case _ => None
  }

  function JsonInt(o: Json, key: string): int
    requires o.Obj?
  {
    match JsonInt64(o, key) case Some(n) => n case None => 0
  }

  function JsonFloat(o: Json, key: string): Option<real>
    requires o.Obj?
  {
    match Field(o, key)
    case Num(_, f) => f
    case Str(_, f) => f
    case _ => None
  }

  // ---- What is sent ----

  datatype Style = Bold | Italic | Underline | Strike | Spoiler | Fixed | Subscript | Superscript | Marked

  datatype RichText =
    | TextEmpty
    | TextPlain(text: string)
    | TextConcat(texts: seq<RichText>)
    | TextStyled(style: Style, inner: RichText)
    | TextDate(inner: RichText, date: int, format: string)
    | TextMentionName(inner: RichText, userId: int)
    | TextUrl(inner: RichText, url: string)
    | TextAnchorLink(inner: RichText, name: string)   // a TextURL to "#" and the encoded name
    | TextEmail(inner: RichText, email: string)
    | TextPhone(inner: RichText, phone: string)
    | TextCustomEmoji(documentId: int, alt: string)
    | TextMath(source: string)
    | TextAnchor(inner: RichText, name: string)

  datatype Caption = Caption(text: RichText, credit: RichText)

  datatype Align = Left | Center | Right
  datatype VerticalAlign = Top | Middle | Bottom

  datatype Cell = Cell(header: bool, text: RichText, colspan: Option<int>, rowspan: Option<int>, align: Align, valign: VerticalAlign)

  datatype Row = Row(cells: seq<Cell>)

  /** An item of a list; `listType` is empty in an unordered one. */
  datatype ListItem = ListItem(checkbox: bool, checked: bool, blocks: seq<PageBlock>, listType: string, number: int, numeral: string)

  datatype PageBlock =
    | Paragraph(text: RichText) | Footer(text: RichText) | Thinking(text: RichText)
    | Preformatted(text: RichText, language: string)
    | Divider | Math(source: string) | Anchor(name: string)
    | BulletList(items: seq<ListItem>) | OrderedList(items: seq<ListItem>)
    | Blockquote(blocks: seq<PageBlock>, credit: RichText)
    | Pullquote(text: RichText, credit: RichText)
    | Collage(blocks: seq<PageBlock>, caption: Caption) | Slideshow(blocks: seq<PageBlock>, caption: Caption)
    | Table(bordered: bool, striped: bool, title: RichText, rows: seq<Row>)
    | Details(open: bool, title: RichText, blocks: seq<PageBlock>)
    | Map(latitude: real, longitude: real, accuracy: Option<int>, zoom: int, width: int, height: int, caption: Caption)
    | Photo(spoiler: bool, id: int, caption: Caption)
    | Video(looped: bool, spoiler: bool, id: int, caption: Caption)
    | Audio(id: int, caption: Caption)

  // ---- Rich text ----

  datatype TextKind =
    | Styled(style: Style) | Detected | DateTime | TextMention | Link | Email | Phone | CustomEmoji | Formula
    | Reference | AnchorHere | LinkTo(nameKey: string) | Unsupported

  function TextKindOf(textType: string): TextKind {
    match textType
    case "bold" => Styled(Bold)
    case "italic" => Styled(Italic)
    case "underline" => Styled(Underline)
    case "strikethrough" => Styled(Strike)
    case "spoiler" => Styled(Spoiler)
    case "code" => Styled(Fixed)
    case "subscript" => Styled(Subscript)
    case "superscript" => Styled(Superscript)
    case "marked" => Styled(Marked)
    case "mention" | "hashtag" | "cashtag" | "bot_command" | "bank_card_number" => Detected
    case "date_time" => DateTime
    case "text_mention" => TextMention
    case "url" => Link
    case "email_address" => Email
    case "phone_number" => Phone
    case "custom_emoji" => CustomEmoji
    case "mathematical_expression" => Formula
    case "reference" => Reference
    case "anchor" => AnchorHere
    case "reference_link" => LinkTo("reference_name")
    case "anchor_link" => LinkTo("anchor_name")
    case _ => Unsupported
  }

  function KindOf(o: Json): TextKind
    requires o.Obj?
  {
    TextKindOf(JsonString(o, "type"))
  }

  predicate IsDateTimeFormat(format: string) {
    format in {"r", "R"} || forall i | 0 <= i < |format| :: format[i] in {'t', 'T', 'd', 'D', 'w', 'W'}
  }

  /** The user of a text mention. */
  function MentionedUser(o: Json): Option<int>
    requires o.Obj?
  {
    var user := Field(o, "user");
    if !user.Obj? then None
    else match JsonInt64(user, "id") case Some(id) => (if id > 0 then Some(id) else None) case None => None
  }

  /** A typed text object around its inner text. */
  function Typed(o: Json, inner: RichText): Result<RichText>
    requires o.Obj?
  {
    match KindOf(o)
    case Styled(style) => Ok(TextStyled(style, inner))
    case Detected => Ok(inner)
    case DateTime =>
      var t := JsonInt64(o, "unix_time");
      var format := JsonString(o, "date_time_format");
      if t.None? || t.value <= 0 || !IsDateTimeFormat(format) then Err else Ok(TextDate(inner, t.value, format))
    case TextMention => if MentionedUser(o).Some? then Ok(TextMentionName(inner, MentionedUser(o).value)) else Err
    case Link => if JsonString(o, "url") == "" then Err else Ok(TextUrl(inner, JsonString(o, "url")))
    case Email => Ok(TextEmail(inner, JsonString(o, "email_address")))
    case Phone => Ok(TextPhone(inner, JsonString(o, "phone_number")))
    case CustomEmoji =>
      var id := JsonInt64(o, "custom_emoji_id");
      if id.None? || id.value == 0 then Err else Ok(TextCustomEmoji(id.value, JsonString(o, "alternative_text")))
    case Formula => Ok(TextMath(JsonString(o, "expression")))
    case Reference => Ok(TextAnchor(inner, JsonString(o, "name")))
    case AnchorHere => Ok(TextAnchor(TextEmpty, JsonString(o, "name")))
    case LinkTo(key) => Ok(TextAnchorLink(inner, JsonString(o, key)))
    case Unsupported => Err
  }

  /** The rich text a value is sent as. */
  function TextOf(v: Json): Result<RichText>
    decreases if v.Null? then 0 else 1, v
  {
    match v
    case Null => Ok(TextEmpty)
    case Str(s, _) => Ok(if s == "" then TextEmpty else TextPlain(s))
    case Arr(items) =>
      if |items| == 0 then Ok(TextEmpty)
      else if forall i | 0 <= i < |items| :: TextOf(items[i]).Ok? then
        Ok(TextConcat(seq(|items|, i requires 0 <= i < |items| => TextOf(items[i]).value)))
      else Err
    case Obj(_) =>
      if JsonString(v, "type") == "" then Err
      else (match TextOf(Field(v, "text")) case Ok(inner) => Typed(v, inner) case Err => Err)
    case _ => Err
  }

  // ---- What the text of a message carries ----

  datatype Piece = Words(text: string) | Mention(userId: int)

  /** A piece met in the source, and whether it is sent. */
  datatype Met = Met(piece: Piece, kept: bool)

  predicate Discards(kind: TextKind) { kind.CustomEmoji? || kind.Formula? || kind.AnchorHere? }

  function Dropped(ms: seq<Met>): seq<Met> { seq(|ms|, i requires 0 <= i < |ms| => ms[i].(kept := false)) }

  /** The pieces of a source text in the order they are met: the inner text of a custom emoji, a
      formula or an anchor is read, but not sent. */
  function MetText(v: Json): seq<Met>
    decreases if v.Null? then 0 else 1, v, 0
  {
    match v
    case Str(s, _) => if s == "" then [] else [Met(Words(s), true)]
    case Arr(items) => MetTexts(items)
    case Obj(_) => MetTyped(v, MetText(Field(v, "text")))
    case _ => []
  }

  function MetTyped(o: Json, inner: seq<Met>): seq<Met>
    requires o.Obj?
  {
    if Discards(KindOf(o)) then Dropped(inner)
    else if KindOf(o).TextMention? && MentionedUser(o).Some? then inner + [Met(Mention(MentionedUser(o).value), true)]
    else inner
  }

  function MetTexts(items: seq<Json>): seq<Met>
    decreases 1, items, 1
  {
    if items == [] then [] else MetTexts(items[..|items| - 1]) + MetText(items[|items| - 1])
  }

  /** The pieces of a text that is sent, in order. */
  function Pieces(t: RichText): seq<Piece> {
    match t
    case TextPlain(s) => [Words(s)]
    case TextConcat(texts) => PiecesOf(texts)
    case TextMentionName(inner, id) => Pieces(inner) + [Mention(id)]
    case TextStyled(_, inner) => Pieces(inner)
    case TextDate(inner, _, _) => Pieces(inner)
    case TextUrl(inner, _) => Pieces(inner)
    case TextAnchorLink(inner, _) => Pieces(inner)
    case TextEmail(inner, _) => Pieces(inner)
    case TextPhone(inner, _) => Pieces(inner)
    case TextAnchor(inner, _) => Pieces(inner)
    case _ => []
  }

  function PiecesOf(texts: seq<RichText>): seq<Piece> {
    if texts == [] then [] else PiecesOf(texts[..|texts| - 1]) + Pieces(texts[|texts| - 1])
  }

  function Kept(ms: seq<Met>): seq<Piece> {
    if ms == [] then []
    else Kept(ms[..|ms| - 1]) + (if ms[|ms| - 1].kept then [ms[|ms| - 1].piece] else [])
  }

  lemma {:induction false} KeptConcat(a: seq<Met>, b: seq<Met>)
    ensures Kept(a + b) == Kept(a) + Kept(b)
  {
    if b == [] {
      assert a + b == a;
    } else {
      KeptConcat(a, b[..|b| - 1]);
      assert (a + b)[..|a + b| - 1] == a + b[..|b| - 1];
    }
  }

  lemma {:induction false} NothingKept(ms: seq<Met>)
    ensures Kept(Dropped(ms)) == []
  {
    if ms != [] {
      NothingKept(ms[..|ms| - 1]);
      assert Dropped(ms)[..|ms| - 1] == Dropped(ms[..|ms| - 1]);
    }
  }

  lemma MentionKept(met: seq<Met>, id: int)
    ensures Kept(met + [Met(Mention(id), true)]) == Kept(met) + [Mention(id)]
  {
    KeptConcat(met, [Met(Mention(id), true)]);
  }

  lemma TypedKeepsPieces(o: Json, inner: RichText, met: seq<Met>)
    requires o.Obj? && Typed(o, inner).Ok? && Pieces(inner) == Kept(met)
    ensures Pieces(Typed(o, inner).value) == Kept(MetTyped(o, met))
  {
    hide KindOf, MentionedUser, JsonString, JsonInt64, IsDateTimeFormat, Dropped, Kept;
    NothingKept(met);
    if KindOf(o).TextMention? { MentionKept(met, MentionedUser(o).value); }
  }

  /** A text that is sent says what its source said, in the same order, and mentions whom it mentioned,
      except for what is discarded. */
  lemma {:induction false} TextKeepsPieces(v: Json)
    requires TextOf(v).Ok?
    ensures Pieces(TextOf(v).value) == Kept(MetText(v))
    decreases if v.Null? then 0 else 1, v, 0
  {
    match v
    case Arr(items) =>
      if |items| > 0 { ConcatKeepsPieces(items, TextOf(v).value.texts); }
    case Obj(_) =>
      hide Typed, MetTyped, Kept, Pieces;
      TextKeepsPieces(Field(v, "text"));
      TypedKeepsPieces(v, TextOf(Field(v, "text")).value, MetText(Field(v, "text")));
    case _ =>
  }

  lemma {:induction false} ConcatKeepsPieces(items: seq<Json>, texts: seq<RichText>)
    requires |texts| == |items| && forall i | 0 <= i < |items| :: TextOf(items[i]) == Ok(texts[i])
    ensures PiecesOf(texts) == Kept(MetTexts(items))
    decreases 1, items, 1
  {
    if items != [] {
      var n := |items| - 1;
      ConcatKeepsPieces(items[..n], texts[..n]);
      TextKeepsPieces(items[n]);
      KeptConcat(MetTexts(items[..n]), MetText(items[n]));
    }
  }
}
