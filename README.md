# Botgoram in Dafny

A model of the core of Botgoram, a Go framework that drives a per-user
conversation with a Telegram bot as a finite state machine. The project covers:

- **The message dispatcher** (`MessageManager`, manager.go). It keeps a FIFO
  queue of pending messages and the set of keys (users or chats) that a worker
  is busy with. A worker claims the first message whose key is free, then
  commits or rolls back.
- **The transition matcher** (`States`, state.go). Each state keeps its
  transitor lists, and `test` picks the next state id. It tries the tiers in
  order: forward, reply, command, message type, fallback. Within a list, the
  first success in registration order wins.
- **The transition engine and state registry** (`Fsm`, fsm.go, with the
  `TransitorMap`/`StateMaker` types of state_maker.go).
  - `AddState`, `MakeState` and `registerStateMapTransitors` fill the registry.
  - `transit` runs the lookups, the leave action, the data hand-over, the
    enter action, `Save` and the `Transit` chain.
  - `work` loads a user's state, matches, transits, repeats while a retransit
    is asked for, and commits or rolls back.
- **The in-memory store** (`SaveLoader`, saveloader.go).
- **The Telegram-side value helpers**:
  - message kinds, recipients and their keys (`TelegramTypes`, telegram/types.go);
  - the "write only when non-zero" parameter builders (`TelegramHelper`,
    telegram/helper.go);
  - message options (`TelegramOptions`, telegram/options.go);
  - inline query results edited in place (`InlineQuery` and
    `InlineQueryResult`, telegram/inline_query.go and
    telegram/inline_query_result.go).

## How the model is built

**Form.** Each Go file is one module. Go objects whose methods update fields
in place are classes, with the same fields:
- `Manager` and its queue;
- `State`;
- `FSM`;
- `MemoryStore`;
- `UrlValues`/`JsonMap`;
- `Iqr`;
- `InputMessageContent`.

Each such method is proved against a function on values:
- `GetFirstNew` against `FirstNew`;
- `Commit` against `RemoveFirst`;
- `State.Test` against `Match`;
- `RegisterStateMapTransitors` against `RouteSeq`;
- `Transit` against `TransitFrom`;
- `Work` against `WorkFrom`.

The lemmas then state the promised properties about those functions.

**Transitors and actions.** They are user code, so they are function values.
- A transitor maps a message and a snapshot of the state to a verdict: a next
  id or an error.
- An enter or leave action maps a message and a snapshot to an `Effect` and an
  error. The `Effect` is the net result of the `SetData`, `Transit` and
  `Retransit` calls it made on the state it was handed.

**Storage.** The machine talks to its storage through a pair of functions,
`load` and `save`.

**Events.** A ghost trace records what the outside world sees of a transition:
an action ran, or a pair was saved. The ordering and abort properties are
stated about this trace.

**What the code does where its comments promise more.** The model follows the code.
- *Leave actions.* The comment on `Retransit` in state.go:62-66 says that a
  `Transit(id)` call made anywhere wins over `Retransit`. In fsm.go:214-231 and
  fsm.go:191, only the entered state's chain and retransit flag are consulted.
  A leave action's `Transit` and `Retransit` calls change only the state being
  left, which is then dropped. `LeftBehind` and `FSM.OneHop` say so.
- *Persistence failures.* In fsm.go:228-231, when the entered state asked for a
  `Transit`, the result of the recursion overwrites the error of the save just
  made, so a failed save is not reported. `ChainFollowed` states this.
- *Options without a reply markup.* telegram/options.go:94 calls `values` on
  the embedded `*ReplyMarkup` even when it is nil, which dereferences nil at
  telegram/options.go:71. The model uses the evidently intended behaviour, in
  which a nil markup contributes no keys. See "## Findings".

## Model

| member | source | states |
|---|---|---|
| TelegramTypes.FormatIntRoundTrip | telegram/types.go:31-33 | reading back the decimal rendering of any int64 gives the same number |
| TelegramTypes.UserIdentifier | telegram/types.go:31-33 | a user's key is non-empty and parses back to the user's id |
| TelegramTypes.UserIdentifierInjective | telegram/types.go:31-33 | two users have the same key exactly when they have the same id |
| TelegramTypes.UserName | telegram/types.go:36-45 | the name is the first name, then " " and the last name when it is non-empty, then "(username)" when that is non-empty |
| TelegramTypes.ChatIdentifier | telegram/types.go:76-81 | a channel or supergroup is keyed by "@" and its username; any other chat by the decimal id of its embedded user |
| TelegramTypes.PublicChatKeyDiffersFromUserKey | telegram/types.go:76-81 | a channel or supergroup key never equals a user key |
| TelegramTypes.ChatNameIsTitle | telegram/types.go:84-86 | a chat's name is its title, whatever its embedded user is called |
| TelegramTypes.Identifier | telegram/types.go:31-81 | the key is non-empty; a user's and a private chat's key parse back to the id; a public chat's key starts with "@" |
| TelegramTypes.Name | telegram/types.go:36-86 | a user's name starts with the first name; a chat's name is its title |
| TelegramTypes.AsUser | telegram/types.go:48-55 | succeeds, with the user itself, exactly for a user recipient; gives nil and false for a chat |
| TelegramTypes.AsChat | telegram/types.go:89-96 | succeeds, with the chat itself, exactly for a chat recipient; gives nil and false for a user |
| TelegramTypes.AsUserAsChatExclusive | telegram/types.go:48-96 | exactly one of AsUser and AsChat succeeds on any recipient |
| TelegramTypes.Type | telegram/types.go:286-309 | each kind is returned exactly when its part is present and every earlier part in the order contact, location, sticker, photo, video, voice, audio, document is absent; TEXT exactly when there is no attachment and the text is non-empty; STATUS otherwise |
| TelegramHelper.WithOptStr | telegram/helper.go:12-16 | a non-empty val sets the key to [val]; an empty one leaves the map unchanged; no other key changes |
| TelegramHelper.WithOptInt | telegram/helper.go:18-22 | a non-zero val sets the key to its decimal rendering, which parses back to val; 0 leaves the map unchanged; no other key changes |
| TelegramHelper.WithOptBool | telegram/helper.go:24-28 | true sets the key to ["true"]; false leaves the map unchanged, so "false" is never written; no other key changes |
| TelegramHelper.WithMapStr | telegram/helper.go:42-46 | a non-empty string is stored under the key; an empty one leaves the map unchanged; no other key changes |
| TelegramHelper.WithMapInt | telegram/helper.go:48-52 | a non-zero int is stored under the key; 0 leaves the map unchanged; no other key changes |
| TelegramHelper.WithMapBool | telegram/helper.go:54-58 | true is stored under the key; false leaves the map unchanged; no other key changes |
| TelegramHelper.WithMapJSON | telegram/helper.go:66-70 | a non-nil val is stored under the key; nil leaves the map unchanged; no other key changes |
| TelegramHelper.OptStr | telegram/helper.go:12-16 | the url.Values it is handed becomes WithOptStr of its old contents |
| TelegramHelper.OptInt | telegram/helper.go:18-22 | the url.Values it is handed becomes WithOptInt of its old contents |
| TelegramHelper.OptBool | telegram/helper.go:24-28 | the url.Values it is handed becomes WithOptBool of its old contents |
| TelegramHelper.MapStr | telegram/helper.go:42-46 | the map it is handed becomes WithMapStr of its old contents |
| TelegramHelper.MapInt | telegram/helper.go:48-52 | the map it is handed becomes WithMapInt of its old contents |
| TelegramHelper.MapBool | telegram/helper.go:54-58 | the map it is handed becomes WithMapBool of its old contents |
| TelegramHelper.MapJSON | telegram/helper.go:66-70 | the map it is handed becomes WithMapJSON of its old contents |
| TelegramOptions.ReplyMarkupParams | telegram/options.go:68-79 | only reply-markup keys are written; both keyboards are always present, holding their JSON encodings |
| TelegramOptions.ReplyMarkupFlags | telegram/options.go:72-75 | resize_keyboard, one_time_keyboard, selective and hide_keyboard are each present exactly when their flag is set, and every key but the two keyboards holds "true" |
| TelegramOptions.ForceReplyNeverSent | telegram/options.go:64-79 | force_reply is never written, and flipping ForceReply changes nothing in the output |
| TelegramOptions.ReplyMarkupValues | telegram/options.go:68-79 | returns a fresh url.Values whose contents are ReplyMarkupParams |
| TelegramOptions.OptionsParamsAsWritten | telegram/options.go:68-94 | as written, values fails (a nil dereference) exactly when no reply markup is embedded, and otherwise gives OptionsParams |
| TelegramOptions.ReplyOnlyOptionsPanic | telegram/options.go:68-94 | options that only set ReplyTo, with no reply markup, make values fail as written, while the corrected values writes only reply_to_message_id, when it is non-zero |
| TelegramOptions.MarkupParams | telegram/options.go:94 | the embedded markup contributes only reply-markup keys, and none exactly when it is nil |
| TelegramOptions.OptionsParams | telegram/options.go:93-102 | the keys are the reply markup's keys plus at most parse_mode, disable_web_page_preview, disable_notification and reply_to_message_id |
| TelegramOptions.NilMarkupWritesOnlyOptions | telegram/options.go:93-102 | with a nil reply markup only the four option keys can be written |
| TelegramOptions.OptionsKeepReplyMarkup | telegram/options.go:94-99 | every reply-markup key is present, with the same value, exactly as in ReplyMarkupParams of the embedded markup; a nil markup adds none |
| TelegramOptions.OptionsWrittenWhenSet | telegram/options.go:96-99 | each of the four option keys is present exactly when its option differs from its zero value |
| TelegramOptions.OptionsWrittenValues | telegram/options.go:96-99 | parse_mode holds the mode, the two booleans hold "true", and reply_to_message_id holds a decimal that parses back to ReplyTo |
| TelegramOptions.AsTextOmitsParseMode | telegram/options.go:96 | with the AsText mode, parse_mode is absent |
| TelegramOptions.OptionsValues | telegram/options.go:93-102 | returns a fresh url.Values whose contents are OptionsParams |
| InlineQuery.Marshalled | telegram/inline_query.go:176-180 | the keys become the old keys plus id and type; id and type hold the result's id and type; every other key keeps its value |
| InlineQuery.MarshalledIdempotent | telegram/inline_query.go:176-180 | marshalling twice leaves the map as marshalling once does |
| InlineQuery.WithGraphics | telegram/inline_query.go:206-214 | prefix_url is always written; prefix_width only for a positive width and prefix_height only for a positive height (otherwise their old values stay); no other key changes |
| InlineQuery.Iqr.Type | telegram/inline_query.go:168-170 | the result's type string |
| InlineQuery.Iqr.ID | telegram/inline_query.go:172-174 | the result's id |
| InlineQuery.Iqr.constructor | telegram/inline_query.go:162-166 | the result holds the given id, type and map |
| InlineQuery.Iqr.MarshalJSON | telegram/inline_query.go:176-180 | the data map becomes Marshalled of its old contents |
| InlineQuery.Iqr.ParseMode | telegram/inline_query.go:182-184 | parse_mode is set to the mode, even when it is empty; nothing else changes |
| InlineQuery.Iqr.DisableWebPreview | telegram/inline_query.go:186-188 | disable_web_page_preview is set to true; nothing else changes |
| InlineQuery.Iqr.URL | telegram/inline_query.go:190-192 | url is set; nothing else changes |
| InlineQuery.Iqr.HideURL | telegram/inline_query.go:194-196 | hide_url is set to true; nothing else changes |
| InlineQuery.Iqr.Description | telegram/inline_query.go:198-200 | description is set; nothing else changes |
| InlineQuery.Iqr.Title | telegram/inline_query.go:202-204 | title is set; nothing else changes |
| InlineQuery.Iqr.Graphics | telegram/inline_query.go:206-214 | the data map becomes WithGraphics of its old contents |
| InlineQuery.Iqr.Thumb | telegram/inline_query.go:216-218 | WithGraphics with the thumb prefix |
| InlineQuery.Iqr.Photo | telegram/inline_query.go:220-222 | WithGraphics with the photo prefix |
| InlineQuery.Iqr.Gif | telegram/inline_query.go:224-226 | WithGraphics with the gif prefix |
| InlineQuery.Iqr.Mpeg4 | telegram/inline_query.go:228-230 | WithGraphics with the mpeg4 prefix |
| InlineQuery.Iqr.Video | telegram/inline_query.go:232-237 | WithGraphics with the video prefix, plus video_duration exactly when the duration is positive |
| InlineQuery.Iqr.Caption | telegram/inline_query.go:239-241 | caption is set; nothing else changes |
| InlineQuery.Iqr.Message | telegram/inline_query.go:243-245 | message_text is set; nothing else changes |
| InlineQuery.NewArticleResult | telegram/inline_query.go:45-54 | type "article", the given id, and exactly title and message_text in the map |
| InlineQuery.NewPhotoResult | telegram/inline_query.go:72-81 | type "photo", the given id, and exactly photo_url and thumb_url in the map |
| InlineQuery.NewGifResult | telegram/inline_query.go:99-108 | type "gif", the given id, and exactly gif_url and thumb_url in the map |
| InlineQuery.NewMpeg4Result | telegram/inline_query.go:126-135 | type "mpeg4_gif", the given id, and exactly mpeg4_url and thumb_url in the map |
| InlineQuery.NewVideoResult | telegram/inline_query.go:151-160 | type "video", the given id, and exactly video_url and thumb_url in the map |
| InlineQueryResult.InputMessageContent.SetText | telegram/inline_query_result.go:10-14 | the content is a new map holding message_text, plus parse_mode when the mode is non-empty, plus disable_web_preview when set, and nothing else |
| InlineQueryResult.InputMessageContent.SetLocation | telegram/inline_query_result.go:17-22 | the content is a new map holding exactly the two coordinates |
| InlineQueryResult.InputMessageContent.SetVenue | telegram/inline_query_result.go:25-33 | the content is a new map holding latitude, longitude, title and address, plus foursquare_id when non-empty, and nothing else |
| InlineQueryResult.InputMessageContent.SetContact | telegram/inline_query_result.go:36-42 | the content is a new map holding phone_number and first_name, plus last_name when non-empty, and nothing else |
| InlineQueryResult.CachedKindsShareTypeNames | telegram/inline_query_result.go:73-343 | each cached kind writes the same type string as its plain kind, and only the cached sticker writes "sticker" |
| InlineQueryResult.ForceType | telegram/inline_query_result.go:73-343 | the type field becomes the kind's fixed string, whatever it was before (so a second call changes nothing); the other fields keep their values |
| States.DoTest | state.go:177-182 | an empty list answers ErrNoMatch; a success is the answer of one transitor of the list |
| States.SplitCommand | state.go:17 | a command found is a non-empty prefix of the text with no space character in it |
| States.CommandTier | state.go:184-195 | no command in the text gives ErrNoMatch; a success comes from a transitor registered for the text's command |
| States.Match | state.go:176-222 | a failing match is always the fallback list's answer |
| States.State.TestCommand | state.go:184-195 | the verdict is CommandTier of the state's lists |
| States.FirstSuccess | state.go:86-94 | an empty list answers ErrNoMatch; a success is the answer of some transitor of the list |
| States.FirstSuccessSkipsFailures | state.go:86-94 | transitors that fail are skipped: the answer is that of the rest of the list |
| States.FirstSuccessPicksFirst | state.go:88-91 | the earliest succeeding transitor's answer is returned |
| States.FirstSuccessAllFail | state.go:86-94 | when every transitor fails, the last one's answer is returned, not ErrNoMatch |
| States.TestTransitors | state.go:86-94 | the loop answers FirstSuccess of the list |
| States.SplitCommandSound | state.go:17 | a command found is a parse of ^(\S+)(\s*.*)?$ and is the whole leading run of non-space characters |
| States.SplitCommandComplete | state.go:17 | every parse of the regex is found, and the command found extends the parse's first group |
| States.SplitCommandNoneIffNoParse | state.go:184-189 | no command is found exactly when the text does not match the regex |
| States.ForwardTierFirst | state.go:197-202 | a forwarded message that a forward transitor accepts is decided by the first such transitor |
| States.ReplyTierSecond | state.go:203-207 | a reply that no forward transitor takes is decided by the first reply transitor that accepts it |
| States.CommandTierBeforeText | state.go:197-215 | a plain text whose first token is a registered command (compared case-sensitively) is decided by that command's first accepting transitor, when it is not forwarded or replying or when its forward and reply tiers find nothing |
| States.TypeTierAfterCommand | state.go:197-220 | when the forward and reply tiers (for a forwarded or replying message) and the command tier (for a text) find nothing, the message reaches the first accepting transitor of its type's list |
| States.UnknownCommandFallsToText | state.go:184-195 | a text with no command, or an unregistered one, gets ErrNoMatch from the command tier and so goes on to the later tiers |
| States.FallbackTierLast | state.go:221-222 | when no earlier tier succeeds, the fallback list's answer stands, even a failure; with no fallback it is ErrNoMatch |
| States.MatchSuccessComesFromATransitor | state.go:176-222 | a successful match is the answer of one registered transitor |
| States.State.constructor | state.go:110-116 | newState: nil data, no user, empty lists and maps, no chain, no retransit |
| States.State.Clone | state.go:118-122 | a fresh state equal to this one except for its user; this one is not changed |
| States.State.Retransit | state.go:124-126 | only the retransit flag changes, to true |
| States.State.Transit | state.go:132-134 | only the chained id changes, to the given id |
| States.State.SetData | state.go:144-146 | only the data changes |
| States.State.RegisterForward | state.go:156-158 | the transitor is appended to the forward list; every other list and field is unchanged |
| States.State.RegisterReply | state.go:160-162 | the transitor is appended to the reply list; every other list and field is unchanged |
| States.State.Register | state.go:164-166 | the transitor is appended to its type's list, which is created when absent; every other list and field is unchanged |
| States.State.RegisterCommand | state.go:168-170 | the transitor is appended to its command's list, which is created when absent; every other list and field is unchanged |
| States.State.RegisterFallback | state.go:172-174 | the transitor is appended to the fallback list; every other list and field is unchanged |
| States.State.Test | state.go:176-222 | the verdict is Match of the state's lists |
| States.DoTestMethod | state.go:177-182 | an empty list answers ErrNoMatch, otherwise FirstSuccess of the list |
| SaveLoader.LoadAfterSave | saveloader.go:29-42 | Load right after Save gives back the saved id and data, without error |
| SaveLoader.SaveLeavesOthers | saveloader.go:29-33 | a Save for one uid changes nothing that another uid loads |
| SaveLoader.LoadUnseen | saveloader.go:35-41 | a uid never saved loads as the initial state with the initialiser's data |
| SaveLoader.SaveOverwrites | saveloader.go:29-33 | a later Save for the same uid replaces the earlier pair entirely |
| SaveLoader.MemoryStore.constructor | saveloader.go:21-27 | both maps start empty |
| SaveLoader.MemoryStore.Save | saveloader.go:29-33 | both maps are overwritten at uid only, and the result is always nil |
| SaveLoader.MemoryStore.Load | saveloader.go:35-42 | the answer is LoadFrom of the maps; it never fails and changes nothing, so the initialiser's data is not stored |
| MessageManager.FirstNew | manager.go:91-103 | the index found holds a key that is not running, and every earlier key is running; None exactly when every queued key is running |
| MessageManager.ClaimIsEarliestOfItsKey | manager.go:94-100 | per-key FIFO: no earlier queued message has the claimed message's key |
| MessageManager.ClaimExcludesRunningKey | manager.go:95-97 | mutual exclusion: after a claim, a further claim never hands out a message with the claimed key |
| MessageManager.RemoveFirst | manager.go:52-76 | Commit's unlinking shortens the queue by one |
| MessageManager.RemoveFirstIsOneLess | manager.go:58-76 | exactly one occurrence of the message is removed and nothing else |
| MessageManager.RemoveFirstKeepsOrder | manager.go:64-76 | the other messages keep their order: putting the message back at its position gives the old queue |
| MessageManager.RemoveFirstKeepsOtherKeys | manager.go:52-76 | a key other than the committed message's still has a queued message afterwards |
| MessageManager.Manager.FeedMayReturn | manager.go:144-146 | feed's wait can end only when the queue size and the number of running keys are both below the limit; with the queue consistent, the queue limit alone decides, since running keys never outnumber queued messages |
| MessageManager.KeysWithinQueue | manager.go:95-97 | keys that each belong to a queued message are no more than the queued messages |
| MessageManager.Manager.RunningWithinQueue | manager.go:144 | while the queue is consistent, the running keys never outnumber the queued messages, so the running-keys limit never holds feed back by itself |
| MessageManager.Manager.constructor | manager.go:29-41 | empty queue, no running key, counter 0 |
| MessageManager.Manager.Add | manager.go:122-133 | the message is appended at the tail; the running set and counter are unchanged |
| MessageManager.Manager.Feed | manager.go:135-139 | appends at the tail, adds one to qsize, keeps qsize equal to the queue length |
| MessageManager.Manager.GetFirstNew | manager.go:91-103 | returns the message at FirstNew, or nil when there is none; marks exactly that key running, which was not running before; the queue is unchanged |
| MessageManager.Manager.Commit | manager.go:47-79 | the queue becomes RemoveFirst (the first node holding this very message is unlinked), qsize goes down by one, and the key is freed |
| MessageManager.Manager.Rollback | manager.go:81-89 | only the key is freed; the queue and counter are unchanged; it is a no-op when the key is not running |
| Fsm.Cloned | fsm.go:212 | the clone of the target belongs to the current user and carries the target's id |
| Fsm.Handed | fsm.go:212-220 | the target's clone, for the current user, holding the current data as the leave action left it |
| Fsm.LeftBehind | fsm.go:214-220 | the current state keeps its user and id, and only a leave action can change it |
| Fsm.EnteredState | fsm.go:222-226 | the saved state belongs to the current user and carries the target's id |
| Fsm.HopEvents | fsm.go:214-228 | a successful hop ends with exactly one save, under the user's key, of the entered state's id and data; nothing before it is a save |
| Fsm.TransitFrom | fsm.go:201-237 | the state reached belongs to the same user and is registered; on success no chain is pending, and the last event is a save, without error, of that state's id and data under the user's key |
| Fsm.TransitUnknownIdFailsEarly | fsm.go:203-211 | an unregistered current or target id fails with no state, no action run and nothing saved |
| Fsm.LeaveErrorAborts | fsm.go:214-218 | a failing leave action's error is returned, and nothing after the leave action happens |
| Fsm.EnterErrorAborts | fsm.go:222-226 | a failing enter action's error is returned, and nothing is saved |
| Fsm.FirstHopOrder | fsm.go:212-228 | the first hop's events are the leave action, then the enter action handed the current data, then the save of the target id with the data after entering |
| Fsm.ChainFollowed | fsm.go:228-231 | a requested Transit is followed from the entered state; the recursion's state and error replace the hop's, so the save error is dropped; the events are the first hop's followed by the continuation's |
| Fsm.TransitSavesUnderUserKey | fsm.go:228-231 | every pair saved along the whole chain is saved under the same user's key |
| Fsm.LeaveNoSaves | fsm.go:203-226 | a transit that fails in a lookup or an action saves nothing |
| Fsm.DoNext | fsm.go:177-184 | the state reached belongs to the same user and is registered; on success the last event is the save of that state's id and data under the user's key |
| Fsm.Continue | fsm.go:191-195 | the loop commits exactly when it reports no error |
| Fsm.Rounds | fsm.go:186-195 | work commits exactly when it reports no error |
| Fsm.WorkFrom | fsm.go:160-199 | the message is committed exactly when work reports no error |
| Fsm.RoundsStep | fsm.go:186-195 | a failing doNext ends work with its error; a successful one continues the loop from the state it reached |
| Fsm.WorkUnknownStateFails | fsm.go:170-173 | a loaded state id that is not registered fails before matching, with nothing run and nothing saved |
| Fsm.CommitFollowsSave | fsm.go:186-197 | when work commits, its last event is a save under the user's key |
| Fsm.NoMatchNoEffect | fsm.go:177-181 | a message that matches nothing fails with the match's error, and no action runs |
| Fsm.RouteSeq | fsm.go:114-136 | the only error is ErrStateNotFound, and it happens exactly when a non-hidden entry names an unregistered state; no state is added or removed |
| Fsm.RouteTables | fsm.go:124-131 | the forward and reply lists never change; a fallback entry grows the fallback list by one and touches neither the type nor the command lists |
| Fsm.RouteOne | fsm.go:116-131 | succeeds exactly for a hidden entry or a registered state, and never adds or removes a state |
| Fsm.RouteSeqKeepsNodes | fsm.go:114-136 | routing never changes a state's data, user, id or actions |
| Fsm.RouteOneTouchesOnlyItsState | fsm.go:116-131 | a hidden entry, or an entry for another state, leaves a state untouched |
| Fsm.RouteFallback | fsm.go:125-126 | a fallback entry is appended to the fallback list and to nothing else |
| Fsm.RouteCommand | fsm.go:127-128 | a TEXT entry with a command goes to that command's list only |
| Fsm.RouteType | fsm.go:129-130 | any other entry goes to its type's list only; a command on a non-TEXT entry is ignored |
| Fsm.FSM.constructor | fsm.go:60-73 | the registry holds only the initial state "", fresh and with no actions; the manager is empty and uses the same user extractor |
| Fsm.FSM.AddState | fsm.go:95-103 | a taken id (the initial "" included) is refused and nothing changes; a new id gets a fresh state with the given actions and nothing else changes |
| Fsm.FSM.GetState | fsm.go:105-111 | found exactly when the id is registered, and then it is the registered state |
| Fsm.FSM.MakeState | fsm.go:85-93 | AddState with the maker's name and actions; the maker is kept only when that succeeds |
| Fsm.FSM.RouteEntry | fsm.go:116-131 | succeeds exactly when RouteOne does, and the registry becomes RouteOne's |
| Fsm.FSM.RouteEntries | fsm.go:116-132 | routes one maker's entries in order and stops at the first unknown state |
| Fsm.FSM.RegisterStateMapTransitors | fsm.go:114-136 | the registry and the error are RouteSeq over all kept makers' entries; the makers are forgotten only on success |
| Fsm.FSM.OneHop | fsm.go:201-228 | one hop on state objects: clone, leave, hand-over, enter and save, as the stage functions say |
| Fsm.FSM.Transit | fsm.go:201-237 | the state, error and events are TransitFrom's; the current state is changed only by its leave action |
| Fsm.FSM.DoNextStep | fsm.go:177-184 | the state, error and events are DoNext's |
| Fsm.FSM.Serve | fsm.go:164-195 | the error and events are WorkFrom's |
| Fsm.FSM.RunRounds | fsm.go:186-195 | the error and events are Rounds' from the loaded state |
| Fsm.FSM.Rerun | fsm.go:191-195 | the retransit loop reports what Continue says |
| Fsm.FSM.Round | fsm.go:191-195 | one more pass of the loop keeps its report equal to what the rest of the loop will report |
| Fsm.FSM.Work | fsm.go:160-199 | reports WorkFrom's error; commits (queue shortened by RemoveFirst, qsize one less) exactly when there is no error; the deferred Rollback always leaves the key free |
| Fsm.BySender | fsm.go:36-38 | the recipient is the sender as a user, keyed by the sender's id |
| Fsm.ByChat | fsm.go:40-42 | the recipient is the chat, keyed as a chat |
| Fsm.NewBySender | fsm.go:76-78 | a new machine keyed by message sender, holding only the initial state |
| Fsm.NewByChat | fsm.go:81-83 | a new machine keyed by chat, holding only the initial state |

## Left out

- Concurrency is not modelled. Every dispatcher operation is one atomic step.
  This leaves out:
  - the mutex and condition variable;
  - `Run`, `Start` and `Resume`;
  - the error channel and the worker goroutines;
  - `Rollback`'s unlocked read.
- `Begin` is modelled as one `GetFirstNew` attempt. Its blocking wait is
  not modelled.
- `feed`'s wait is not a loop. `Manager.FeedMayReturn` states the condition
  the wait ends on.
- `Fsm.BySender`: every message is assumed to have a sender, and every chat an
  embedded user. In Go, `Message.Sender` (telegram/types.go:257) and `Chat`'s
  embedded `*User` (telegram/types.go:70) are pointers. A message without
  "from" has a nil sender, and `Identifier` (telegram/types.go:31-33) then
  reads `ID` through nil. That panic happens inside `getFirstNew`
  (manager.go:95), so one such message in the queue panics every claim that
  reaches it. The model cannot express such a message. JSON decoding always
  allocates the chat's embedded user, so `Fsm.ByChat` is not affected in
  practice.
- The `msgq` linked list is a sequence of message references. The model has
  node identity only for the messages, which `Commit` compares.
- The key types in the source files do not agree:
  - saveloader.go keys the store by an int uid;
  - fsm.go calls `Load`/`Save` with the string from `Identifier()`;
  - manager.go's `getUID` returns a `telegram.Victim`.

  The machine's storage is a pair of functions keyed by the string
  `Identifier()`. `MemoryStore` keeps the int uid of saveloader.go. The
  dispatcher uses the same `Recipient` as the machine.
- `Fsm.TransitFrom`: the `Transit` chain is followed at most `fuel` more
  times. `Fsm.WorkFrom`: the retransit loop runs at most `rounds` more times.
  Running out gives `ErrFuelExhausted`, which the Go code does not have; there
  the recursion and the loop are unbounded.
- `Fsm.FSM.Work` takes the message `Begin` handed out as a parameter.
- The api handle passed to actions is not modelled.
- The error messages' text is not modelled. This includes the `%d` applied
  to a string key in fsm.go:205.
- `Fsm.FSM.Transit` takes the registry as a ghost parameter equal to the
  machine's registry. The registry is read-only while messages are handled,
  and the model relies on that.
- Transitors and actions are side-effect-free functions of the message and a
  snapshot. An action's effect is the last `SetData`, the last `Transit`, and
  whether `Retransit` was called. An action that calls `Register*` on the
  state it is handed is not modelled.
- The `text` list field of the Go `state` struct is not part of the model.
  The source never reads or writes it.
- Integers are unbounded. The int64 ids and the int counters never
  overflow in the model.
- `optFloat`, `mapFloat` and floating-point formatting are not modelled.
  Coordinates are an opaque `Float64`.
- `optJSON` and `json.Marshal` are not modelled. The keyboard encodings are a
  parameter, since marshalling these plain structs cannot fail.
- The JSON bytes of `MarshalJSON` are not modelled. `File.GetReader` is not
  modelled because it is file I/O.
- The `ReplyMarkup` and `Content` fields of `AbstractInlineQueryResult`
  (telegram/inline_query_result.go:55, :59) are not modelled. `ForceType`'s
  "other fields keep their values" covers only the modelled fields.
- `InlineQueryResultVenue` embeds a `*InlineQueryResultLocation`
  (telegram/inline_query_result.go:211-215), so a venue and the location it
  points to share one abstract result. That aliasing is not modelled: each
  result holds its own value.
- `ForceType` is one method over the nineteen result kinds. The nineteen Go
  struct types are not modelled separately.
- `TelegramOptions.OptionsValues`: models the corrected `values`, which
  treats a nil reply markup as no keys. The Go code panics there;
  `OptionsParamsAsWritten` models that.
- `StateMap` (statemap.go, Graphviz output) is not part of this model. Nor
  are doc.go, the HTTP API layer (telegram/api.go, telegram/api_methods.go),
  the bot loop (telegram/bot.go), the test doubles or the examples.

## Findings

| source | as written | input that shows it | evidently intended | confidence | as-written member | corrected member |
|---|---|---|---|---|---|---|
| telegram/options.go:94 | `Options.values` calls `values` on the embedded `*ReplyMarkup` unconditionally, and that method reads `r.Keyboard` (telegram/options.go:71), a nil dereference when no markup is set | `Options{ReplyTo: 5}` with no reply markup, the shape telegram/example/main.go:94 builds | a nil markup contributes no keys, and only the set options are written | high, not executed | TelegramOptions.OptionsParamsAsWritten, TelegramOptions.ReplyOnlyOptionsPanic | TelegramOptions.OptionsParams, TelegramOptions.NilMarkupWritesOnlyOptions, TelegramOptions.OptionsValues |
