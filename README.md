# DiscordPHP interactions, permissions and stage-instance updates, in Dafny

This project models three pieces of the DiscordPHP client library and proves
what they promise.

- **Interactions** (`interactions.dfy`, `resolution.dfy`). An interaction
  received from Discord must be answered by exactly one primary response:
  - `acknowledge`, `acknowledgeWithResponse`, `respondWithMessage`,
    `updateMessage` or `autoCompleteResult`;
  - each is refused with a `LogicException` when the interaction's type does
    not admit it;
  - all of them go through `respond`, which refuses a second response with a
    `RuntimeException` and otherwise sets `responded` before posting.

  Only after a response may the original response and follow-up messages be
  fetched, edited or deleted; before it, those seven calls are refused with a
  `RuntimeException`. The model is:
  - a class `Interaction` with the `responded` flag and a ghost log of the
    requests handed to the transport;
  - pure functions (`PrimaryOutcome`, `FollowUpOutcome`, `RespondOutcome`)
    that every method is proved equal to;
  - lemmas about arbitrary sequences of calls.

  The lazy `get*Attribute` resolvers are pure functions over the raw
  attributes and the client's caches.
- **Permissions** (`permission_tables.dfy`, `permissions.dfy`, `bits.dfy`). A permission set holds one
  boolean flag per permission of its table. The `bitwise` attribute packs the
  flags as one bit per permission's index:
  - reading it ORs `1 << index` over the set flags, or on 32-bit GMP builds
    sets each bit with `gmp_setbit` and returns the decimal string;
  - writing it overwrites every flag of the table with the matching bit test.

  `Permission` is a class whose constructor, getter and setter are loops over
  the table, each proved against the specification functions `Encode` and
  `Decoded`. The round trips between the two are proved as lemmas.
- **Stage-instance updates** (`stage_instance_update.dfy`). The
  STAGE_INSTANCE_UPDATE event reads the cached instance before pushing the new
  one into its guild's registry. It then resolves its deferred with the pair
  of new and old instance.

PHP integers are modelled as unbounded `nat`s, with the 64-bit limit written
out where it matters: the `(int)` cast of a string saturates at `PHP_INT_MAX`.

## Model

| member | source | states |
|---|---|---|
| Interactions.Interaction.constructor | src/Discord/Parts/Interactions/Interaction.php:83 | a new interaction has not responded and has sent nothing, so `Valid` holds: the log holds one primary response exactly when `responded` is set |
| Interactions.RespondOutcome | src/Discord/Parts/Interactions/Interaction.php:398-419 | `respond` posts exactly when not yet responded, and otherwise rejects with the "already been responded to" `RuntimeError`. The post goes to the interaction's response endpoint, and the platform receives the given payload from the plain body and from the multipart body alike. A multipart body keeps the builder's parts in front of `payload_json` |
| Interactions.Interaction.Respond | src/Discord/Parts/Interactions/Interaction.php:398-419 | the method's outcome is `RespondOutcome`. `responded` is true afterwards. The log grows by the request sent, if any. The multipart object gains the `payload_json` part exactly when the request goes out. `Valid` is kept, so the log never holds a second primary response |
| Interactions.PrimaryOutcome | src/Discord/Parts/Interactions/Interaction.php:188-249 | a primary response goes out if and only if the interaction's type admits it (`Accepts`) and nothing was sent before. The wrong type is a `LogicError` whatever the state. The right type after a response is the "already responded" `RuntimeError`. Anything sent is a POST to the interaction's response endpoint |
| Interactions.Interaction.Acknowledge | src/Discord/Parts/Interactions/Interaction.php:188-201 | the outcome is `PrimaryOutcome` for `acknowledge`. `responded` becomes true only if the call was dispatched. The log grows by the request sent, if any, and `Valid` is kept |
| Interactions.Interaction.AcknowledgeWithResponse | src/Discord/Parts/Interactions/Interaction.php:215-225 | as `Acknowledge`, for `acknowledgeWithResponse(ephemeral)` |
| Interactions.Interaction.RespondWithMessage | src/Discord/Parts/Interactions/Interaction.php:367-381 | as `Acknowledge`, for `respondWithMessage`. The builder's flags become 64 when the call is ephemeral and the type is accepted, even if `respond` then refuses |
| Interactions.Interaction.UpdateMessage | src/Discord/Parts/Interactions/Interaction.php:239-249 | as `Acknowledge`, for `updateMessage` |
| Interactions.Interaction.AutoCompleteResult | src/Discord/Parts/Interactions/Interaction.php:506-516 | as `Acknowledge`, for `autoCompleteResult` |
| Interactions.AcknowledgeCommandDelegates | src/Discord/Parts/Interactions/Interaction.php:190-192 | on an application command, `acknowledge` behaves exactly as `acknowledgeWithResponse(false)` |
| Interactions.AcknowledgeComponent | src/Discord/Parts/Interactions/Interaction.php:194-200 | on a message component, `acknowledge` posts `{type: DEFERRED_UPDATE_MESSAGE}` with no data |
| Interactions.AcknowledgeWithResponseData | src/Discord/Parts/Interactions/Interaction.php:221-224 | `acknowledgeWithResponse(e)` posts DEFERRED_CHANNEL_MESSAGE_WITH_SOURCE. Its data is `{flags: 64}` if and only if `e` holds, and empty otherwise |
| Interactions.MultipartCarriesPlainPayload | src/Discord/Parts/Interactions/Interaction.php:406-418 | a message response that needs a multipart body is the builder's parts, without their own `payload_json`, followed by a `payload_json` part that encodes exactly the payload the plain path posts for the same message |
| Interactions.UpdateMessageOnCommandRejected | src/Discord/Parts/Interactions/Interaction.php:241-243 | `updateMessage` on an application command is rejected with the component-only `LogicError`, whatever the state |
| Interactions.AutoCompleteAnyLength | src/Discord/Parts/Interactions/Interaction.php:506-516 | autocomplete choices of any number are posted unchanged |
| Interactions.FollowUpOutcome | src/Discord/Parts/Interactions/Interaction.php:260-318 | an original-response or follow-up call goes out if and only if a response was sent, and is a `RuntimeError` otherwise. It is addressed through the application id and the token, never through the response endpoint. The platform reads the call's message from its body, plain or multipart, and the body is multipart exactly when the builder needs it; the calls without a message send no body |
| Interactions.Interaction.GetOriginalResponse | src/Discord/Parts/Interactions/Interaction.php:260-270 | the outcome is `FollowUpOutcome` for this call. `responded` is left alone, since only the log may change. The log grows by the request sent, if any, and `Valid` is kept, since no primary response is sent |
| Interactions.Interaction.UpdateOriginalResponse | src/Discord/Parts/Interactions/Interaction.php:283-300 | as `GetOriginalResponse`, a PATCH whose body is multipart exactly when the builder needs it |
| Interactions.Interaction.DeleteOriginalResponse | src/Discord/Parts/Interactions/Interaction.php:311-318 | as `GetOriginalResponse`, a DELETE |
| Interactions.Interaction.SendFollowUpMessage | src/Discord/Parts/Interactions/Interaction.php:332-353 | as `GetOriginalResponse`, with the "cannot create a follow-up" error. The builder's flags become 64 only when the call is ephemeral and a response was sent |
| Interactions.Interaction.UpdateFollowUpMessage | src/Discord/Parts/Interactions/Interaction.php:433-450 | as `SendFollowUpMessage`, a PATCH of the given follow-up |
| Interactions.Interaction.GetFollowUpMessage | src/Discord/Parts/Interactions/Interaction.php:463-473 | as `GetOriginalResponse`, a GET of the given follow-up |
| Interactions.Interaction.DeleteFollowUpMessage | src/Discord/Parts/Interactions/Interaction.php:486-493 | as `GetOriginalResponse`, a DELETE of the given follow-up |
| Interactions.Interaction.MessageBodyOf | src/Discord/Parts/Interactions/Interaction.php:289-296 | the platform reads the builder's message from the body, and the body is the builder's multipart form, with its own `payload_json`, exactly when the builder needs one |
| Interactions.Multipart.Add | src/Discord/Parts/Interactions/Interaction.php:407-413 | adding a part appends it |
| Interactions.MessageBuilder.SetFlags | src/Discord/Parts/Interactions/Interaction.php:373-375 | `_setFlags(64)` leaves the builder's flags at 64 |
| Interactions.MessageBuilder.ToMultipart | src/Discord/Parts/Interactions/Interaction.php:380 | `toMultipart` builds a fresh form holding the builder's current state |
| Interactions.AtMostOneResponse | src/Discord/Parts/Interactions/Interaction.php:83 | over any sequence of calls, at most one request reaches the response endpoint, and none if `responded` was already true. `responded` ends true if and only if it started true or a response went out, so it is never cleared |
| Interactions.FollowUpsAfterResponse | src/Discord/Parts/Interactions/Interaction.php:260-493 | every original-response or follow-up call that goes out comes after a primary response that went out |
| Interactions.SecondResponseRefused | src/Discord/Parts/Interactions/Interaction.php:400-402 | of two accepted primary responses in a row, the first goes out and the second is the "already responded" `RuntimeError` |
| Resolution.ResolveData | src/Discord/Parts/Interactions/Interaction.php:90-102 | data resolves if and only if raw data is present. It keeps its name and carries the interaction's guild id when there is one, and its own otherwise |
| Resolution.ResolveGuild | src/Discord/Parts/Interactions/Interaction.php:109-112 | the guild resolves if and only if the interaction names a cached guild. With caches keyed by id, it is the guild of that id |
| Resolution.ResolveChannel | src/Discord/Parts/Interactions/Interaction.php:119-126 | the resolved guild's own channel of the id is preferred, and the client-wide lookup is used only when there is none. With keyed caches, the channel has the id asked for |
| Resolution.ResolveMember | src/Discord/Parts/Interactions/Interaction.php:133-144 | a member resolves if and only if a raw member is present. It is the cached guild member of the raw member's user id when one exists, and otherwise the detached member built with `guild_id`. With keyed caches, its user id is the raw member's user id |
| Resolution.ResolveUser | src/Discord/Parts/Interactions/Interaction.php:151-162 | the user is the member's user whenever a member resolves, and the raw user otherwise. With keyed caches, it is the invoking user the raw member names |
| Resolution.ResolveMessage | src/Discord/Parts/Interactions/Interaction.php:169-176 | a message resolves if and only if a raw message is present, and is built from it |
| Resolution.DirectMessageResolution | src/Discord/Parts/Interactions/Interaction.php:109-162 | outside a guild, there is no guild and no member, the channel comes from the client-wide lookup, and the user is the raw user |
| Resolution.DataStampIdempotent | src/Discord/Parts/Interactions/Interaction.php:96-99 | writing the guild id back into the raw data changes no later resolution |
| Permissions.FillableKeys | src/Discord/Parts/Permissions/Permission.php:116-118 | the fillable list, the table's names followed by `bitwise`, holds exactly those keys |
| Permissions.Permission.constructor | src/Discord/Parts/Permissions/Permission.php:114-127 | after construction, every name of the table and `bitwise` has a value. Supplied values are kept, and every other flag is false |
| Permissions.Permission.GetBitwise | src/Discord/Parts/Permissions/Permission.php:141-162 | both loops compute `Encode`, the OR of `1 << index` over the set flags. The GMP build returns its decimal string and the native build the integer, which never exceeds `PHP_INT_MAX` |
| Permissions.Permission.SetBitwise | src/Discord/Parts/Permissions/Permission.php:169-182 | the flags become `Decoded`: each table flag is the bit of the written value at its index (a decimal string is cast first on 64-bit builds), and every other attribute is unchanged |
| Permissions.DecodedFlags | src/Discord/Parts/Permissions/Permission.php:175-181 | after decoding, each table flag is true if and only if its bit is set. Other attributes keep their values, and no key is lost |
| Permissions.EncodeBits | src/Discord/Parts/Permissions/Permission.php:155-159 | bit `i` of the encoding is set if and only if some table entry of index `i` has its flag set |
| Permissions.MaskBits | src/Discord/Parts/Permissions/Permission.php:35-102 | the table's mask has exactly the bits of the table's indices |
| Permissions.EncodeBound | src/Discord/Parts/Permissions/Permission.php:155-161 | with indices below 63, the encoding is below `2^63` |
| Permissions.Pow2Of63 | src/Discord/Parts/Permissions/Permission.php:171 | `2^63` is one more than `PHP_INT_MAX`, so every encoding fits in a 64-bit PHP integer |
| Permissions.GmpStepMatchesNative | src/Discord/Parts/Permissions/Permission.php:145-159 | each `gmp_setbit` step turns the encoding of the entries before it into the encoding of the entries up to it, so both branches compute the same number |
| Permissions.SetThenGet | src/Discord/Parts/Permissions/Permission.php:141-181 | setting `b` and then reading `bitwise` gives `b` masked to the table's bits |
| Permissions.GetThenSet | src/Discord/Parts/Permissions/Permission.php:141-181 | reading `bitwise` and writing it back leaves every flag as it was |
| Permissions.DecimalStringDecodesAsInt | src/Discord/Parts/Permissions/Permission.php:171-173 | on 64-bit builds, the decimal string of a PHP integer decodes as that integer |
| Permissions.CrossWidthRoundTrip | src/Discord/Parts/Permissions/Permission.php:152-173 | the decimal string a GMP build writes, written back on a 64-bit build, restores every flag |
| Permissions.Permission.UseSlashCommands | src/Discord/Parts/Permissions/Permission.php:184-187 | the value of `use_application_commands`, which is present on a valid set whose table has it |
| Permissions.Permission.UsePublicThreads | src/Discord/Parts/Permissions/Permission.php:189-192 | the value of `create_public_threads`, under the same condition |
| Permissions.Permission.UsePrivateThreads | src/Discord/Parts/Permissions/Permission.php:194-197 | the value of `create_private_threads`, under the same condition |
| Permissions.Permission.ManageEmojis | src/Discord/Parts/Permissions/Permission.php:199-202 | the value of `manage_emojis_and_stickers`, under the same condition |
| Permissions.AliasesFollowBitwise | src/Discord/Parts/Permissions/Permission.php:175-202 | after `bitwise` is written on the "text + role" table, the four aliases read bits 31, 35, 36 and 30 of the written value |
| PermissionTables.VoiceRoleShareManageEvents | src/Discord/Parts/Permissions/Permission.php:35-89 | the voice and role tables share `manage_events => 33`, so their concatenation repeats a name and is not the table `array_merge` makes of them |
| PermissionTables.TextWellFormed | src/Discord/Parts/Permissions/Permission.php:54-70 | the text table has distinct names and distinct indices, all below 63 |
| PermissionTables.RoleWellFormed | src/Discord/Parts/Permissions/Permission.php:77-89 | the role table has distinct names and distinct indices, all below 63 |
| PermissionTables.AllWellFormed | src/Discord/Parts/Permissions/Permission.php:96-102 | the table of permissions that apply everywhere has distinct names and distinct indices, all below 63 |
| PermissionTables.AllTextWellFormed | src/Discord/Parts/Permissions/Permission.php:54-102 | the "all + text" table has distinct names and distinct indices |
| PermissionTables.TextRoleWellFormed | src/Discord/Parts/Permissions/Permission.php:54-89 | the "text + role" table has distinct names and distinct indices |
| Permissions.ViewChannelAndManageRolesEncode | src/Discord/Parts/Permissions/Permission.php:155-161 | on the "all + text" table, `view_channel` and `manage_roles` alone encode as `(1 << 10) \| (1 << 28)` |
| Permissions.ViewChannelAndManageRolesDecode | src/Discord/Parts/Permissions/Permission.php:175-181 | decoding `(1 << 10) \| (1 << 28)` on that table sets exactly `view_channel` and `manage_roles` |
| Bits.OrBit | src/Discord/Parts/Permissions/Permission.php:157 | `\|` sets a bit if and only if either operand has it |
| Bits.SetBitToBit | src/Discord/Parts/Permissions/Permission.php:149 | `gmp_setbit` changes the one bit it names and no other |
| Bits.SameBits | src/Discord/Parts/Permissions/Permission.php:141-181 | two numbers with the same bits are equal |
| Decimal.DecimalRoundTrip | src/Discord/Parts/Permissions/Permission.php:152 | the digits `gmp_strval` writes read back as the number |
| Decimal.CastReadsDecimal | src/Discord/Parts/Permissions/Permission.php:172 | the `(int)` cast of a decimal string reads back any number up to `PHP_INT_MAX` |
| StageInstances.Guild.Push | src/Discord/WebSockets/Events/StageInstanceUpdate.php:29 | pushing stores the instance under its id, replacing any instance there |
| StageInstances.Deferred.Resolve | src/Discord/WebSockets/Events/StageInstanceUpdate.php:32 | resolving records the value once |
| StageInstances.Updated | src/Discord/WebSockets/Events/StageInstanceUpdate.php:27-30 | after the update, the instance's guild, if cached, maps the instance id to the new instance. Every other entry and every other guild is unchanged, and no guild is added |
| StageInstances.Replaced | src/Discord/WebSockets/Events/StageInstanceUpdate.php:27-28 | the old instance is the cached guild's entry under the instance id. It is null when either the guild or the entry is missing |
| StageInstances.Handle | src/Discord/WebSockets/Events/StageInstanceUpdate.php:23-33 | the registry becomes `Updated` of the old registry. The deferred is resolved exactly once, with the new instance and `Replaced` of the old registry. The guild cache itself is unchanged |
| StageInstances.HandleTwice | src/Discord/WebSockets/Events/StageInstanceUpdate.php:27-32 | handling an update twice leaves the registry as handling it once, and the second time the instance replaces itself |
| StageInstances.ReplacedUndoes | src/Discord/WebSockets/Events/StageInstanceUpdate.php:27-29 | pushing the replaced instance back restores the registry as it was |

## Left out

- The HTTP transport, `Endpoint::bind` and the URLs: a request is a record of verb, endpoint (named by the identifiers bound into it) and body, appended to a ghost log.
- Promises: `reject`, `->then`, and the mapping of a response back into a `Message` by the part factory. A call's result is the `Outcome` datatype, rejected or dispatched.
- `json_encode` and the string rendering of a multipart form: `JsonEncoded(payload)` stands for the encoding, and a form is its list of parts.
- `MessageBuilder` internals: the builder is its content, its flags and whether it needs a multipart body. `toMultipart` is modelled as a part holding the builder's state. `_setFlags` is modelled as assigning the flags.
- The part factory and the magic-attribute machinery: a part built from raw attributes is modelled as the value of those attributes.
- `Discord::getChannel` is modelled as a lookup in one client-wide map of channels, which finds nothing for an unset channel id.
- Resolution.ResolveData: the write of `guild_id` into the shared raw data object is not modelled as a mutation. `DataStampIdempotent` shows that it changes no later resolution.
- Permissions.Numeric: PHP's `(int)` cast is modelled on leading decimal digits only. Leading whitespace, a sign and exponent notation are not modelled, nor are negative integers written to `bitwise`.
- Permissions.Numeric: on a 32-bit build with GMP, `Bitwise::test` is not part of this model. A string written there is modelled as the unbounded value of its leading digits.
- 32-bit builds without GMP, where `1 << 31` and above overflow a PHP integer, are not modelled.
- The 25-choice limit of the Discord API is not enforced, matching the code.
- Concurrency: none exists here.
- StageInstances.Handle: when the guild is not cached, `$old` is never assigned, so PHP raises an "Undefined variable" warning before reading it as null. The model resolves with `None` and does not model the warning.
- The voice table is modelled as its literal only: no permission kind whose table includes it is part of this model, and a union with the role table would need `array_merge`, which is not modelled.
