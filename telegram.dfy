/**
 * The content classifier of the Telegram side of the bot: who sent a
 * message, which of its strings carries the content, and whether the bot
 * has to answer it.
 */
module Telegram {

  import opened Wrappers
  import opened JsStrings

  /** `message.chat.type`; `OtherChat` stands for every other value (a channel, say). */
  datatype ChatType = Private | Group | Supergroup | OtherChat

  /** `entity.type`; `OtherEntity` stands for every type but the two the bot looks at. */
  datatype EntityType = BotCommand | Mention | OtherEntity

  /** A span of the message text annotated by Telegram, in UTF-16 code units. */
  datatype Entity = Entity(kind: EntityType, offset: int, length: int)

  /** `message.from`. */
  datatype Sender = Sender(firstName: JsString, lastName: Option<JsString>)

  /** One size variant of a photo (`message.photo` lists several). */
  datatype PhotoSize = PhotoSize(fileId: JsString)

  /** The fields of a Telegram message the bot reads; `None` is an absent field. */
  datatype Message = Message(
    chatType: ChatType,
    from: Option<Sender>,
    text: Option<JsString>,
    entities: Option<seq<Entity>>,
    caption: Option<JsString>,
    captionEntities: Option<seq<Entity>>,
    photo: Option<seq<PhotoSize>>,
    groupChatCreated: bool)

  /** The object `extractContent` returns; absent properties are `None`. */
  datatype Extraction = Extraction(
    command: Option<JsString>,
    text: Option<JsString>,
    photo: Option<seq<PhotoSize>>,
    shouldReply: bool)

  /**
   * How a call of `extractContent` ends: with an extraction, with
   * `undefined` (the chat-type switch has no matching case), or with a
   * TypeError (a property read on `undefined`).
   */
  datatype Classification = Classified(content: Extraction) | Unclassified | Threw

  /** The separator of the `${user}: ${text}` templates. */
  const ColonSpace: JsString := Literal(": ")

  /** The template `${user}: ${s}`. */
  function Labelled(user: JsString, s: JsString): (r: JsString)
    ensures |r| == |user| + |ColonSpace| + |s|
    ensures r[..|user| + |ColonSpace|] == user + ColonSpace
    ensures r[|user| + |ColonSpace|..] == s
  {
    user + ColonSpace + s
  }

  /** `extractUser`: the first name, then a space and the last name when that is non-empty. */
  function ExtractUser(from: Sender): (r: JsString)
    ensures |from.firstName| <= |r| && r[..|from.firstName|] == from.firstName
    ensures !Truthy(from.lastName) ==> r == from.firstName
    ensures Truthy(from.lastName) ==>
      |r| == |from.firstName| + 1 + |from.lastName.value| &&
      r[|from.firstName|] == 0x20 && r[|from.firstName| + 1..] == from.lastName.value
  {
    if Truthy(from.lastName) then from.firstName + Space + from.lastName.value
    else from.firstName
  }

  /** The string that is classified: the caption when a photo is attached, the text otherwise. */
  function EffectiveText(msg: Message): Option<JsString>
  {
    if msg.photo.Some? then msg.caption else msg.text
  }

  /** The entities that go with `EffectiveText`. */
  function EffectiveEntities(msg: Message): Option<seq<Entity>>
  {
    if msg.photo.Some? then msg.captionEntities else msg.entities
  }

  /** `entities?.[0].type === kind` when `entities` is absent or non-empty. */
  predicate LeadsWith(entities: Option<seq<Entity>>, kind: EntityType)
  {
    entities.Some? && |entities.value| > 0 && entities.value[0].kind == kind
  }

  /** The identity the mention branch compares with the bot's: `text.substring(offset + 1, length)`. */
  function MentionedIdentity(text: JsString, e: Entity): (r: JsString)
    ensures e.offset == 0 && 1 <= e.length <= |text| ==> r == text[1..e.length]
  {
    Substring(text, e.offset + 1, e.length)
  }

  /**
   * The text with the mention and the code unit after it cut out:
   * `text.substring(0, offset) + text.substring(offset + length + 1)`.
   */
  function WithoutMention(text: JsString, e: Entity): (r: JsString)
    ensures 0 <= e.offset <= |text| && e.length >= 0 ==>
      var stop := if e.offset + e.length + 1 <= |text| then e.offset + e.length + 1 else |text|;
      r == text[..e.offset] + text[stop..]
  {
    Substring(text, 0, e.offset) + SubstringFrom(text, e.offset + e.length + 1)
  }

  /**
   * `extractContent`, with the bot's own username (`TELEGRAM_BOT_ID`) as a
   * parameter. A message without `from` (a channel post) throws in
   * `extractUser` before anything else is looked at.
   */
  function ExtractContent(msg: Message, botId: Option<JsString>): (r: Classification)
    // a missing sender, an empty entity list, or a command or mention without text, throws
    ensures r.Threw? <==>
      msg.from.None? || EffectiveEntities(msg) == Some([]) ||
      ((LeadsWith(EffectiveEntities(msg), BotCommand) || LeadsWith(EffectiveEntities(msg), Mention))
       && EffectiveText(msg).None?)
    // only a message with neither a leading command nor a leading mention, in a chat type
    // outside the switch, yields `undefined`: every command and mention is classified
    ensures r.Unclassified? <==>
      && msg.from.Some? && EffectiveEntities(msg) != Some([])
      && !LeadsWith(EffectiveEntities(msg), BotCommand) && !LeadsWith(EffectiveEntities(msg), Mention)
      && msg.chatType == OtherChat
    // a command: it is the prefix of length `length + 1`, the rest follows the sender's name
    ensures LeadsWith(EffectiveEntities(msg), BotCommand) && r.Classified? ==>
      var text, user := EffectiveText(msg).value, ExtractUser(msg.from.value);
      var e := EffectiveEntities(msg).value[0];
      && r.content.shouldReply && r.content.photo == msg.photo
      && r.content.command.Some? && r.content.text.Some?
      && |r.content.command.value| == Clamp(e.length + 1, |text|)
      && |user + ColonSpace| <= |r.content.text.value|
      && r.content.text.value[..|user + ColonSpace|] == user + ColonSpace
      && r.content.command.value + r.content.text.value[|user + ColonSpace|..] == text
    // a mention of the bot: answered, with the mention and the code unit after it removed
    ensures (LeadsWith(EffectiveEntities(msg), Mention) && r.Classified? &&
      botId == Some(MentionedIdentity(EffectiveText(msg).value, EffectiveEntities(msg).value[0]))) ==>
      var text, user := EffectiveText(msg).value, ExtractUser(msg.from.value);
      var e := EffectiveEntities(msg).value[0];
      && r.content.shouldReply && r.content.command.None? && r.content.photo == msg.photo
      && r.content.text == Some(Labelled(user, WithoutMention(text, e)))
    // a mention of anyone else: kept for context, not answered, text unchanged
    ensures (LeadsWith(EffectiveEntities(msg), Mention) && r.Classified? &&
      botId != Some(MentionedIdentity(EffectiveText(msg).value, EffectiveEntities(msg).value[0]))) ==>
      r.content == Extraction(None, Some(Labelled(ExtractUser(msg.from.value), EffectiveText(msg).value)), msg.photo, false)
    // no leading command or mention: the chat type decides
    ensures (msg.from.Some? && EffectiveEntities(msg) != Some([])
      && !LeadsWith(EffectiveEntities(msg), BotCommand) && !LeadsWith(EffectiveEntities(msg), Mention)) ==>
      match msg.chatType
      case Private => r == Classified(Extraction(None, EffectiveText(msg), msg.photo, true))
      case Group => r == Classified(Extraction(None, None, None, false))
      case Supergroup =>
        r == Classified(Extraction(None, Some(Labelled(ExtractUser(msg.from.value), Interpolate(EffectiveText(msg)))), msg.photo, false))
      case OtherChat => r == Unclassified
    // the photo is passed on untouched, or not at all
    ensures r.Classified? ==> r.content.photo == msg.photo || r.content.photo.None?
  {
    match msg.from
    case None => Threw
    case Some(from) =>
      var user := ExtractUser(from);
      var text := EffectiveText(msg);
      var entities := EffectiveEntities(msg);
      if entities == Some([]) then Threw
      else if LeadsWith(entities, BotCommand) then
        if text.None? then Threw
        else
          var commandLength := entities.value[0].length + 1;
          SubstringSplit(text.value, commandLength);
          Classified(Extraction(
            Some(Substring(text.value, 0, commandLength)),
            Some(Labelled(user, SubstringFrom(text.value, commandLength))),
            msg.photo,
            true))
      else if LeadsWith(entities, Mention) then
        if text.None? then Threw
        else
          var e := entities.value[0];
          if botId == Some(MentionedIdentity(text.value, e)) then
            Classified(Extraction(None, Some(Labelled(user, WithoutMention(text.value, e))), msg.photo, true))
          else
            Classified(Extraction(None, Some(Labelled(user, text.value)), msg.photo, false))
      else
        match msg.chatType
        case Private => Classified(Extraction(None, text, msg.photo, true))
        case Group => Classified(Extraction(None, None, None, false))
        case Supergroup => Classified(Extraction(None, Some(Labelled(user, Interpolate(text))), msg.photo, false))
        case OtherChat => Unclassified
  }

  /**
   * A message with a sender and a non-empty entity list is classified
   * exactly when its leading command or mention has text to go with it, or
   * it has neither and its chat type is one the switch knows. The bot then
   * answers exactly commands, mentions of itself and messages in private
   * chats.
   */
  lemma ShouldReplyCases(msg: Message, botId: Option<JsString>)
    ensures ExtractContent(msg, botId).Classified? <==>
      var entities, text := EffectiveEntities(msg), EffectiveText(msg);
      && msg.from.Some? && entities != Some([])
      && ((LeadsWith(entities, BotCommand) || LeadsWith(entities, Mention)) ==> text.Some?)
      && ((!LeadsWith(entities, BotCommand) && !LeadsWith(entities, Mention)) ==> msg.chatType != OtherChat)
    ensures ExtractContent(msg, botId).Classified? ==>
      (ExtractContent(msg, botId).content.shouldReply <==>
         var entities, text := EffectiveEntities(msg), EffectiveText(msg);
         || LeadsWith(entities, BotCommand)
         || (LeadsWith(entities, Mention) && botId == Some(MentionedIdentity(text.value, entities.value[0])))
         || (!LeadsWith(entities, Mention) && msg.chatType == Private))
  {
  }

  /** With a photo attached, the text and its entities play no part; without one, the caption plays none. */
  lemma CaptionReplacesText(msg: Message, botId: Option<JsString>, text: Option<JsString>, entities: Option<seq<Entity>>)
    ensures msg.photo.Some? ==>
      ExtractContent(msg.(text := text, entities := entities), botId) == ExtractContent(msg, botId)
    ensures msg.photo.None? ==>
      ExtractContent(msg.(caption := text, captionEntities := entities), botId) == ExtractContent(msg, botId)
  {
  }

  /**
   * Only the first of the classified entities is consulted (the caption's
   * when a photo is attached, the text's otherwise): the ones after it can
   * be anything.
   */
  lemma OnlyFirstEntityMatters(msg: Message, botId: Option<JsString>, rest: seq<Entity>)
    requires EffectiveEntities(msg).Some? && |EffectiveEntities(msg).value| > 0
    ensures var first := EffectiveEntities(msg).value[0];
      msg.photo.None? ==> ExtractContent(msg.(entities := Some([first] + rest)), botId) == ExtractContent(msg, botId)
    ensures var first := EffectiveEntities(msg).value[0];
      msg.photo.Some? ==> ExtractContent(msg.(captionEntities := Some([first] + rest)), botId) == ExtractContent(msg, botId)
  {
  }

  /**
   * The span the mention check evidently means: the mentioned username runs
   * from just after the `@` at `offset` to the end of the entity,
   * `offset + length`.
   */
  function IntendedMentionedIdentity(text: JsString, e: Entity): (r: JsString)
    ensures 0 <= e.offset && 1 <= e.length && e.offset + e.length <= |text| ==>
      r == text[e.offset + 1..e.offset + e.length]
  {
    Substring(text, e.offset + 1, e.offset + e.length)
  }

  /** With the intended span, a mention of the bot is recognised wherever it stands in the text. */
  lemma IntendedMentionRecognisesBot(before: JsString, bot: JsString, after: JsString)
    ensures var text := before + [0x40] + bot + after;
      IntendedMentionedIdentity(text, Entity(Mention, |before|, |bot| + 1)) == bot
  {
    var text := before + [0x40] + bot + after;
    assert text[|before| + 1..|before| + 1 + |bot|] == bot;
  }

  /** At the start of the text, the span as written and the intended one agree. */
  lemma MentionAtStartAsIntended(text: JsString, e: Entity)
    requires e.offset == 0
    ensures MentionedIdentity(text, e) == IntendedMentionedIdentity(text, e)
  {
  }

  /**
   * As written, a mention of the bot after the start of the text is not
   * recognised: in "hi @bot" (mention at offset 3, length 4) the span
   * `substring(4, 4)` is empty, so a private message addressing bot "bot"
   * is classified as mentioning someone else and is not answered.
   */
  lemma MentionAfterStartIsMissed()
    ensures var text: JsString := [0x68, 0x69, 0x20, 0x40, 0x62, 0x6F, 0x74];
      var bot: JsString := [0x62, 0x6F, 0x74];
      var e := Entity(Mention, 3, 4);
      var msg := Message(Private, Some(Sender(bot, None)), Some(text), Some([e]), None, None, None, false);
      && IntendedMentionedIdentity(text, e) == bot
      && MentionedIdentity(text, e) == []
      && ExtractContent(msg, Some(bot)).Classified?
      && !ExtractContent(msg, Some(bot)).content.shouldReply
  {
    var text: JsString := [0x68, 0x69, 0x20, 0x40, 0x62, 0x6F, 0x74];
    IntendedMentionRecognisesBot([0x68, 0x69, 0x20], [0x62, 0x6F, 0x74], []);
    assert [0x68, 0x69, 0x20] + [0x40] + [0x62, 0x6F, 0x74] + [] == text;
  }
}
