/** Rich texts written back as JSON, with the names of the Bot API: reading gives back what was written,
    and nothing is read but what can be written. */
module TextWriting {
  import opened Basics
  import opened Decimal
  import opened RichTree

  /** The choices a writer has: numbers as JSON numbers or as decimal text, references or anchors, and
      what to put inside a text whose inner text is not sent. */
  datatype Spelling = Spelling(numbersAsText: bool, references: bool, aside: Json)

  function Number(n: int, w: Spelling): Json {
    if w.numbersAsText && -9223372036854775808 <= n <= 9223372036854775807 then Str(Itoa(n), None) else Num(Some(n), None)
  }

  function Text(s: string): Json { Str(s, None) }

  function StyleType(style: Style): string {
    match style
    case Bold => "bold"
    case Italic => "italic"
    case Underline => "underline"
    case Strike => "strikethrough"
    case Spoiler => "spoiler"
    case Fixed => "code"
    case Subscript => "subscript"
    case Superscript => "superscript"
    case Marked => "marked"
  }

  function Written(t: RichText, w: Spelling): Json {
    match t
    case TextEmpty => Null
    case TextPlain(s) => Text(s)
    case TextConcat(texts) => Arr(seq(|texts|, i requires 0 <= i < |texts| => Written(texts[i], w)))
    case TextStyled(style, inner) => Obj(map["type" := Text(StyleType(style)), "text" := Written(inner, w)])
    case TextDate(inner, date, format) =>
      Obj(map["type" := Text("date_time"), "text" := Written(inner, w), "unix_time" := Number(date, w),
              "date_time_format" := Text(format)])
    case TextMentionName(inner, id) =>
      Obj(map["type" := Text("text_mention"), "text" := Written(inner, w), "user" := Obj(map["id" := Number(id, w)])])
    case TextUrl(inner, url) => Obj(map["type" := Text("url"), "text" := Written(inner, w), "url" := Text(url)])
    case TextAnchorLink(inner, name) =>
      if w.references then
        Obj(map["type" := Text("reference_link"), "text" := Written(inner, w), "reference_name" := Text(name)])
      else
        Obj(map["type" := Text("anchor_link"), "text" := Written(inner, w), "anchor_name" := Text(name)])
    case TextEmail(inner, email) =>
      Obj(map["type" := Text("email_address"), "text" := Written(inner, w), "email_address" := Text(email)])
    case TextPhone(inner, phone) =>
      Obj(map["type" := Text("phone_number"), "text" := Written(inner, w), "phone_number" := Text(phone)])
    case TextCustomEmoji(id, alt) =>
      Obj(map["type" := Text("custom_emoji"), "text" := w.aside, "custom_emoji_id" := Number(id, w),
              "alternative_text" := Text(alt)])
    case TextMath(source) =>
      Obj(map["type" := Text("mathematical_expression"), "text" := w.aside, "expression" := Text(source)])
    case TextAnchor(inner, name) =>
      if inner.TextEmpty? && !w.references then
        Obj(map["type" := Text("anchor"), "text" := w.aside, "name" := Text(name)])
      else
        Obj(map["type" := Text("reference"), "text" := Written(inner, w), "name" := Text(name)])
  }

  /** "r" for a relative time, or any combination of time, date and day of the week. */
  predicate IsFormat(format: string) { format == "r" || format == "R" || forall i | 0 <= i < |format| :: format[i] in "tTdDwW" }

  /** What Telegram can be sent. */
  predicate WellFormed(t: RichText) {
    match t
    case TextPlain(s) => s != ""
    case TextConcat(texts) => texts != [] && forall i | 0 <= i < |texts| :: WellFormed(texts[i])
    case TextDate(inner, date, format) => WellFormed(inner) && date > 0 && IsFormat(format)
    case TextMentionName(inner, id) => WellFormed(inner) && id > 0
    case TextUrl(inner, url) => WellFormed(inner) && url != ""
    case TextCustomEmoji(id, _) => id != 0
    case TextStyled(_, inner) => WellFormed(inner)
    case TextAnchorLink(inner, _) => WellFormed(inner)
    case TextEmail(inner, _) => WellFormed(inner)
    case TextPhone(inner, _) => WellFormed(inner)
    case TextAnchor(inner, _) => WellFormed(inner)
    case _ => true
  }

  lemma NumberReads(o: Json, key: string, n: int, w: Spelling)
    requires o.Obj? && Field(o, key) == Number(n, w)
    ensures JsonInt64(o, key) == Some(n)
  {
    hide Itoa, ParseInt;
    ItoaRoundTrip(n);
  }

  /** A decimal text is a number exactly when it fits in 64 bits. */
  lemma LongNumbers(o: Json, key: string, n: int, parsed: Option<real>)
    requires o.Obj? && Field(o, key) == Str(Itoa(n), parsed)
    ensures JsonInt64(o, key) == if -9223372036854775808 <= n <= 9223372036854775807 then Some(n) else None
  {
    hide Itoa, ParseInt;
    ItoaRoundTrip(n);
  }

  lemma FormatsAgree(format: string)
    ensures IsDateTimeFormat(format) <==> IsFormat(format)
  {
  }

  lemma StyleReads(style: Style)
    ensures StyleType(style) != "" && TextKindOf(StyleType(style)) == Styled(style)
  {
  }

  /** A typed object is read by its type, around its inner text. */
  lemma ObjectReads(o: Json, kind: string, inner: RichText)
    requires o.Obj? && Field(o, "type") == Text(kind) && kind != "" && TextOf(Field(o, "text")) == Ok(inner)
    ensures TextOf(o) == Typed(o, inner) && KindOf(o) == TextKindOf(kind)
  {
  }

  lemma KindsRead()
    ensures TextKindOf("date_time") == DateTime && TextKindOf("text_mention") == TextMention && TextKindOf("url") == Link
    ensures TextKindOf("email_address") == Email && TextKindOf("phone_number") == Phone
    ensures TextKindOf("custom_emoji") == CustomEmoji && TextKindOf("mathematical_expression") == Formula
    ensures TextKindOf("reference") == Reference && TextKindOf("anchor") == AnchorHere
    ensures TextKindOf("reference_link") == LinkTo("reference_name") && TextKindOf("anchor_link") == LinkTo("anchor_name")
  {
  }

  /** The inner text that a text is written with. */
  function Inner(t: RichText): RichText
    requires IsObject(t)
  {
    match t
    case TextStyled(_, inner) => inner
    case TextDate(inner, _, _) => inner
    case TextMentionName(inner, _) => inner
    case TextUrl(inner, _) => inner
    case TextAnchorLink(inner, _) => inner
    case TextEmail(inner, _) => inner
    case TextPhone(inner, _) => inner
    case TextAnchor(inner, _) => inner
    case _ => TextEmpty
  }

  predicate IsObject(t: RichText) { !t.TextEmpty? && !t.TextPlain? && !t.TextConcat? }

  /** Whether the inner text is sent. */
  predicate Sends(t: RichText, w: Spelling) {
    !t.TextCustomEmoji? && !t.TextMath? && !(t.TextAnchor? && t.inner.TextEmpty? && !w.references)
  }

  /** What is written with a number. */
  predicate Numbered(t: RichText) { t.TextDate? || t.TextMentionName? || t.TextCustomEmoji? }

  lemma NumberedRoundTrip(t: RichText, w: Spelling)
    requires Numbered(t) && WellFormed(t) && TextOf(w.aside).Ok?
    requires Sends(t, w) ==> TextOf(Written(Inner(t), w)) == Ok(Inner(t))
    ensures TextOf(Written(t, w)) == Ok(t)
  {
    hide Itoa, TextKindOf, JsonInt64, TextOf, IsDateTimeFormat, IsFormat;
    KindsRead();
    var o := Written(t, w);
    ObjectReads(o, JsonString(o, "type"), if Sends(t, w) then Inner(t) else TextOf(w.aside).value);
    if t.TextDate? { FormatsAgree(t.format); }
    match t
    case TextDate(_, date, _) => NumberReads(o, "unix_time", date, w);
    case TextMentionName(_, id) => NumberReads(Field(o, "user"), "id", id, w);
    case TextCustomEmoji(id, _) => NumberReads(o, "custom_emoji_id", id, w);
  }

  lemma StyledRoundTrip(t: RichText, w: Spelling)
    requires t.TextStyled?
    requires Sends(t, w) ==> TextOf(Written(Inner(t), w)) == Ok(Inner(t))
    ensures TextOf(Written(t, w)) == Ok(t)
  {
    hide TextKindOf, TextOf;
    StyleReads(t.style);
    ObjectReads(Written(t, w), StyleType(t.style), t.inner);
  }

  lemma NamedRoundTrip(t: RichText, w: Spelling)
    requires IsObject(t) && !Numbered(t) && !t.TextStyled? && WellFormed(t) && TextOf(w.aside).Ok?
    requires Sends(t, w) ==> TextOf(Written(Inner(t), w)) == Ok(Inner(t))
    ensures TextOf(Written(t, w)) == Ok(t)
  {
    hide Itoa, TextKindOf, JsonInt64, TextOf;
    KindsRead();
    var o := Written(t, w);
    ObjectReads(o, JsonString(o, "type"), if Sends(t, w) then Inner(t) else TextOf(w.aside).value);
  }

  /** Every text that can be sent is read from what is written for it, however it is spelled. */
  lemma {:induction false} TextRoundTrip(t: RichText, w: Spelling)
    requires WellFormed(t) && TextOf(w.aside).Ok?
    ensures TextOf(Written(t, w)) == Ok(t)
  {
    if t.TextConcat? {
      var o := Written(t, w);
      forall i | 0 <= i < |t.texts| ensures TextOf(o.items[i]) == Ok(t.texts[i]) { TextRoundTrip(t.texts[i], w); }
      assert TextOf(o).value.texts == t.texts;
    } else if IsObject(t) {
      hide TextOf, Written;
      if Sends(t, w) { TextRoundTrip(Inner(t), w); }
      if Numbered(t) { NumberedRoundTrip(t, w); } else if t.TextStyled? { StyledRoundTrip(t, w); } else { NamedRoundTrip(t, w); }
    }
  }

  /** The types that are sent as their inner text. */
  lemma DetectedByTheServer(v: Json)
    requires v.Obj? && JsonString(v, "type") in {"mention", "hashtag", "cashtag", "bot_command", "bank_card_number"}
    ensures TextOf(v) == TextOf(Field(v, "text"))
  {
  }

  const TEXT_TYPES := {
    "bold", "italic", "underline", "strikethrough", "spoiler", "code", "subscript", "superscript", "marked",
    "mention", "hashtag", "cashtag", "bot_command", "bank_card_number", "date_time", "text_mention", "url",
    "email_address", "phone_number", "custom_emoji", "mathematical_expression", "reference", "anchor",
    "reference_link", "anchor_link"}

  /** What a value must be to be read as a text. */
  predicate IsText(v: Json)
    decreases if v.Null? then 0 else 1, v
  {
    match v
    case Null => true
    case Str(_, _) => true
    case Arr(items) => forall i | 0 <= i < |items| :: IsText(items[i])
    case Obj(_) => JsonString(v, "type") in TEXT_TYPES && IsText(Field(v, "text")) && IsComplete(v, JsonString(v, "type"))
    case _ => false
  }

  /** The members that the type demands. */
  predicate IsComplete(v: Json, kind: string)
    requires v.Obj?
  {
    && (kind == "date_time" ==>
          JsonInt64(v, "unix_time").Some? && JsonInt64(v, "unix_time").value > 0 && IsFormat(JsonString(v, "date_time_format")))
    && (kind == "text_mention" ==>
          var user := Field(v, "user"); user.Obj? && JsonInt64(user, "id").Some? && JsonInt64(user, "id").value > 0)
    && (kind == "url" ==> JsonString(v, "url") != "")
    && (kind == "custom_emoji" ==> JsonInt64(v, "custom_emoji_id").Some? && JsonInt64(v, "custom_emoji_id").value != 0)
  }

  lemma ObjectAccepted(v: Json, inner: RichText)
    requires v.Obj?
    ensures JsonString(v, "type") != "" && Typed(v, inner).Ok? <==>
      JsonString(v, "type") in TEXT_TYPES && IsComplete(v, JsonString(v, "type"))
  {
    hide JsonInt64, JsonString, IsDateTimeFormat, IsFormat;
    FormatsAgree(JsonString(v, "date_time_format"));
  }

  /** A value is read as a text if and only if it is one: an error is given for nothing else. */
  lemma {:induction false} AcceptedExactly(v: Json)
    ensures TextOf(v).Ok? <==> IsText(v)
    decreases if v.Null? then 0 else 1, v
  {
    if v.Arr? {
      forall i | 0 <= i < |v.items| ensures TextOf(v.items[i]).Ok? <==> IsText(v.items[i]) { AcceptedExactly(v.items[i]); }
    } else if v.Obj? {
      hide Typed, IsComplete, TEXT_TYPES;
      AcceptedExactly(Field(v, "text"));
      if TextOf(Field(v, "text")).Ok? { ObjectAccepted(v, TextOf(Field(v, "text")).value); }
    }
  }

  lemma ObjectIsWellFormed(v: Json, inner: RichText)
    requires v.Obj? && Typed(v, inner).Ok? && WellFormed(inner)
    ensures WellFormed(Typed(v, inner).value)
  {
    hide JsonInt64, JsonString, TextKindOf, IsDateTimeFormat, IsFormat;
    FormatsAgree(JsonString(v, "date_time_format"));
  }

  /** Nothing is read but what can be sent. */
  lemma {:induction false} TextIsWellFormed(v: Json)
    ensures TextOf(v).Ok? ==> WellFormed(TextOf(v).value)
    decreases if v.Null? then 0 else 1, v
  {
    if v.Arr? {
      if TextOf(v).Ok? && v.items != [] {
        forall i | 0 <= i < |v.items| ensures WellFormed(TextOf(v.items[i]).value) { TextIsWellFormed(v.items[i]); }
      }
    } else if v.Obj? {
      hide Typed, WellFormed;
      TextIsWellFormed(Field(v, "text"));
      if TextOf(v).Ok? { ObjectIsWellFormed(v, TextOf(Field(v, "text")).value); }
    }
  }
}
