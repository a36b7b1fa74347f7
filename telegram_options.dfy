/**
 * The optional sending parameters of a message and of its reply markup,
 * rendered as url.Values. Modelled on telegram/options.go.
 */
module TelegramOptions {
  import opened Wrappers
  import opened TelegramTypes
  import opened TelegramHelper

  /** How clients render a message text; a Go string type. */
  type ParseMode = string
  const AsText: ParseMode := ""
  const AsMarkdown: ParseMode := "Markdown"
  const AsHTML: ParseMode := "HTML"

  datatype KeyboardButton = KeyboardButton(text: string, requestContact: bool, requestLocation: bool)
  datatype InlineKeyboardButton = InlineKeyboardButton(text: string, url: string, data: string, switchChat: string)

  /** Custom keyboard and reply interface options. */
  datatype ReplyMarkup = ReplyMarkup(
    keyboard: seq<seq<KeyboardButton>>,
    resize: bool,
    once: bool,
    selective: bool,
    hide: bool,
    inlineKeyboard: seq<seq<InlineKeyboardButton>>,
    forceReply: bool)

  /**
   * json.Marshal for the two keyboard types, which stands outside the model.
   * Marshalling these plain structs cannot fail, so optJSON always writes.
   */
  datatype JsonEncoder = JsonEncoder(
    keyboard: seq<seq<KeyboardButton>> -> string,
    inlineKeyboard: seq<seq<InlineKeyboardButton>> -> string)

  /** The keys ReplyMarkup.values can emit. */
  const ReplyMarkupKeys: set<string> :=
    {"keyboard", "resize_keyboard", "one_time_keyboard", "selective", "hide_keyboard", "inline_keyboard"}

  /** The keys Options.values adds to those of its reply markup. */
  const OptionsKeys: set<string> :=
    {"parse_mode", "disable_web_page_preview", "disable_notification", "reply_to_message_id"}

  /** What ReplyMarkup.values produces: both keyboards always, and only the flags that are set. */
  function ReplyMarkupParams(r: ReplyMarkup, enc: JsonEncoder): (p: Params)
    ensures p.Keys <= ReplyMarkupKeys
    ensures "keyboard" in p && p["keyboard"] == [enc.keyboard(r.keyboard)]
    ensures "inline_keyboard" in p && p["inline_keyboard"] == [enc.inlineKeyboard(r.inlineKeyboard)]
  {
    var p0: Params := map[];
    var p1 := p0["keyboard" := [enc.keyboard(r.keyboard)]];
    var p2 := WithOptBool(p1, "resize_keyboard", r.resize);
    var p3 := WithOptBool(p2, "one_time_keyboard", r.once);
    var p4 := WithOptBool(p3, "selective", r.selective);
    var p5 := WithOptBool(p4, "hide_keyboard", r.hide);
    p5["inline_keyboard" := [enc.inlineKeyboard(r.inlineKeyboard)]]
  }

  /** Each boolean flag of the reply markup is sent, as "true", exactly when it is set. */
  lemma ReplyMarkupFlags(r: ReplyMarkup, enc: JsonEncoder)
    ensures var p := ReplyMarkupParams(r, enc);
            && ("resize_keyboard" in p <==> r.resize)
            && ("one_time_keyboard" in p <==> r.once)
            && ("selective" in p <==> r.selective)
            && ("hide_keyboard" in p <==> r.hide)
            && forall k :: k in p && k != "keyboard" && k != "inline_keyboard" ==> p[k] == ["true"]
  {
    var p0: Params := map[];
    var p1 := p0["keyboard" := [enc.keyboard(r.keyboard)]];
    var p2 := WithOptBool(p1, "resize_keyboard", r.resize);
    var p3 := WithOptBool(p2, "one_time_keyboard", r.once);
    var p4 := WithOptBool(p3, "selective", r.selective);
    var p5 := WithOptBool(p4, "hide_keyboard", r.hide);
    assert "resize_keyboard"[0] != "inline_keyboard"[0];
    assert forall k :: k in p5 && k != "keyboard" ==> p5[k] == ["true"];
  }

  /** ForceReply is never sent, whatever its value. */
  lemma ForceReplyNeverSent(r: ReplyMarkup, enc: JsonEncoder)
    ensures "force_reply" !in ReplyMarkupParams(r, enc)
    ensures ReplyMarkupParams(r.(forceReply := !r.forceReply), enc) == ReplyMarkupParams(r, enc)
  {
  }

  /** ReplyMarkup.values: built key by key into a fresh url.Values. */
  method ReplyMarkupValues(r: ReplyMarkup, enc: JsonEncoder) returns (ret: UrlValues)
    ensures fresh(ret)
    ensures ret.entries == ReplyMarkupParams(r, enc)
  {
    ret := new UrlValues();
    ret.Set("keyboard", enc.keyboard(r.keyboard));
    OptBool(ret, "resize_keyboard", r.resize);
    OptBool(ret, "one_time_keyboard", r.once);
    OptBool(ret, "selective", r.selective);
    OptBool(ret, "hide_keyboard", r.hide);
    ret.Set("inline_keyboard", enc.inlineKeyboard(r.inlineKeyboard));
  }

  /** Options for sending a message; `replyMarkup` is an embedded pointer, None when nil. */
  datatype Options = Options(
    parseMode: ParseMode,
    noPreview: bool,
    replyTo: int,
    replyMarkup: Option<ReplyMarkup>,
    silent: bool)

  /**
   * Options.values as written: it starts from the embedded reply markup's
   * values, and with a nil markup that call reads a field through a nil
   * pointer and panics (None here). Otherwise it agrees with OptionsParams.
   */
  function OptionsParamsAsWritten(o: Options, enc: JsonEncoder): (r: Option<Params>)
    ensures r.None? <==> o.replyMarkup.None?
    ensures r.Some? ==> r.value == OptionsParams(o, enc)
  {
    if o.replyMarkup.None? then None else Some(OptionsParams(o, enc))
  }

  /** The options of a plain reply, as a bot builds them: only ReplyTo is set. */
  function ReplyOnlyOptions(replyTo: int): (o: Options)
    ensures o.replyTo == replyTo && o.replyMarkup.None?
  {
    Options(AsText, false, replyTo, None, false)
  }

  /** Every options value that sets no reply markup makes Options.values panic as written. */
  lemma ReplyOnlyOptionsPanic(replyTo: int, enc: JsonEncoder)
    ensures OptionsParamsAsWritten(ReplyOnlyOptions(replyTo), enc).None?
    ensures OptionsParams(ReplyOnlyOptions(replyTo), enc).Keys
            == if replyTo != 0 then {"reply_to_message_id"} else {}
  {
    OptionsWrittenWhenSet(ReplyOnlyOptions(replyTo), enc);
  }

  /** What the embedded reply markup contributes: nothing when it is nil. */
  function MarkupParams(m: Option<ReplyMarkup>, enc: JsonEncoder): (p: Params)
    ensures p.Keys <= ReplyMarkupKeys
    ensures m.None? <==> p == map[]
  {
    if m.Some? then ReplyMarkupParams(m.value, enc) else map[]
  }

  /**
   * What Options.values evidently means to produce: the reply markup's
   * values (none for a nil markup) plus at most four keys.
   */
  function OptionsParams(o: Options, enc: JsonEncoder): (p: Params)
    ensures p.Keys <= ReplyMarkupKeys + OptionsKeys
  {
    var base := MarkupParams(o.replyMarkup, enc);
    var p1 := WithOptStr(base, "parse_mode", o.parseMode);
    var p2 := WithOptBool(p1, "disable_web_page_preview", o.noPreview);
    var p3 := WithOptBool(p2, "disable_notification", o.silent);
    WithOptInt(p3, "reply_to_message_id", o.replyTo)
  }

  /** Options.values keeps every value of the embedded reply markup unchanged, and adds none for a nil one. */
  lemma OptionsKeepReplyMarkup(o: Options, enc: JsonEncoder)
    ensures var p := OptionsParams(o, enc);
            var base := MarkupParams(o.replyMarkup, enc);
            forall k :: k in ReplyMarkupKeys ==> (k in p <==> k in base) && (k in p ==> p[k] == base[k])
  {
    OptionsStepsKeepOtherKeys(MarkupParams(o.replyMarkup, enc), o);
  }

  /** With a nil reply markup only the four options can be written. */
  lemma NilMarkupWritesOnlyOptions(o: Options, enc: JsonEncoder)
    requires o.replyMarkup.None?
    ensures OptionsParams(o, enc).Keys <= OptionsKeys
  {
    OptionsKeepReplyMarkup(o, enc);
  }

  /** Each of the four options is written exactly when it differs from its zero value. */
  lemma OptionsWrittenWhenSet(o: Options, enc: JsonEncoder)
    ensures var p := OptionsParams(o, enc);
            && ("parse_mode" in p <==> o.parseMode != "")
            && ("disable_web_page_preview" in p <==> o.noPreview)
            && ("disable_notification" in p <==> o.silent)
            && ("reply_to_message_id" in p <==> o.replyTo != 0)
  {
    KeySetsDisjoint();
  }

  /** No key of Options.values collides with a key of the reply markup. */
  lemma KeySetsDisjoint()
    ensures ReplyMarkupKeys !! OptionsKeys
  {
    forall k | k in OptionsKeys ensures k !in ReplyMarkupKeys {
      assert |k| in {10, 19, 20, 24};
    }
  }

  /** The values written for the four options. */
  lemma OptionsWrittenValues(o: Options, enc: JsonEncoder)
    ensures var p := OptionsParams(o, enc);
            && (o.parseMode != "" ==> p["parse_mode"] == [o.parseMode])
            && (o.noPreview ==> p["disable_web_page_preview"] == ["true"])
            && (o.silent ==> p["disable_notification"] == ["true"])
            && (o.replyTo != 0 ==> |p["reply_to_message_id"]| == 1
                                   && ParseInt(p["reply_to_message_id"][0]) == Some(o.replyTo))
  {
  }

  /** The four optional writes of Options.values touch no key of the reply markup. */
  lemma OptionsStepsKeepOtherKeys(base: Params, o: Options)
    ensures var p := WithOptInt(WithOptBool(WithOptBool(WithOptStr(base, "parse_mode", o.parseMode),
                       "disable_web_page_preview", o.noPreview), "disable_notification", o.silent),
                       "reply_to_message_id", o.replyTo);
            forall k :: k in ReplyMarkupKeys ==> (k in p <==> k in base) && (k in p ==> p[k] == base[k])
  {
    var p1 := WithOptStr(base, "parse_mode", o.parseMode);
    var p2 := WithOptBool(p1, "disable_web_page_preview", o.noPreview);
    var p3 := WithOptBool(p2, "disable_notification", o.silent);
    var p4 := WithOptInt(p3, "reply_to_message_id", o.replyTo);
    forall k | k in ReplyMarkupKeys
      ensures (k in p4 <==> k in base) && (k in p4 ==> p4[k] == base[k])
    {
      assert k !in OptionsKeys;
    }
  }

  /** Plain text mode (AsText) sends no parse_mode at all. */
  lemma AsTextOmitsParseMode(o: Options, enc: JsonEncoder)
    requires o.parseMode == AsText
    ensures "parse_mode" !in OptionsParams(o, enc)
  {
  }

  /**
   * Options.values, corrected: starts from the embedded reply markup's
   * values, or from an empty url.Values when the markup is nil.
   */
  method OptionsValues(o: Options, enc: JsonEncoder) returns (ret: UrlValues)
    ensures fresh(ret)
    ensures ret.entries == OptionsParams(o, enc)
  {
    if o.replyMarkup.Some? {
      ret := ReplyMarkupValues(o.replyMarkup.value, enc);
    } else {
      ret := new UrlValues();
    }
    OptStr(ret, "parse_mode", o.parseMode);
    OptBool(ret, "disable_web_page_preview", o.noPreview);
    OptBool(ret, "disable_notification", o.silent);
    OptInt(ret, "reply_to_message_id", o.replyTo);
  }
}
