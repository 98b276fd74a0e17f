# async_supercell_api: a verified model of the response decoder

async_supercell_api is a Python client for the Clash Royale and Clash of
Clans REST APIs. Its core turns the `(status, JSON)` pair of a response
into Python objects. A dict payload becomes an instance of a response class
(`SupercellApiResponse` or one of its subclasses). Declared fields are
decoded as nested objects, lists of objects or raw values, and unknown keys
are kept as attributes. A list payload is decoded element by element. Any
other value comes back as it is. A status outside 2xx raises `ClientError`.
This project models that core in Dafny and proves what it does:

- which attributes an instance ends up with, and in which order;
- what the success flag holds, and what `bool()` returns;
- what each declared field of every response class holds;
- how `Page` decodes its items;
- when decoding raises TypeError instead;
- how the error path builds a `ClientError`;
- what request `make_api_request` hands to the transport;
- the exact text `to_string` and `repr` print.

## Layout

| file | module | what it holds |
|---|---|---|
| wrappers.dfy | Wrappers | `Option`, `Result` |
| json_data.dfy | JsonData | JSON values and Python truthiness |
| keywords.dfy | Keywords | keyword binding, `**kwargs`, `setattr` on an ordered `vars()` |
| shapes.dfy | Shapes | a response class as its name plus its declared fields, each scalar, nested or a list; the base class and `Page` |
| responses.dfy | Responses | instances, `SupercellApiResponse.__init__`, `__bool__`, `to_string`, `__repr__` and their laws |
| decoder.dfy | Decoder, DecoderLaws | `Cls(**payload)` for any class, and its laws |
| pages.dfy | Pages | what a decoded `Page` holds |
| errors.dfy | Errors | `ClientError.__init__` |
| api.dfy | Api | `SupercellAPI.__init__`, `make_api_request`, `create_object` |
| royale_*.dfy, clash_*.dfy | one table module and one rules module per source file | every response class of the two games: its declared fields, and what a decoded instance holds |

The object model follows Python closely. An instance is its class plus
`vars(self)`: an ordered list of (name, value) pairs, updated the way
`setattr` updates a dict. An existing name keeps its place and a new one is
appended. Keyword arguments are ordered lists too. A call binds when no
keyword is named `self` and no name is given twice; otherwise Python raises
TypeError (`Failure` in the model). The base constructor stores its flag
under the mangled name `_SupercellApiResponse__success`. It therefore both
appears in `vars(self)` and is hidden by `to_string`. Every subclass
constructor has the same form: it passes its `**kwargs` to the base
constructor, then assigns each declared parameter in declaration order.
Each declared parameter is None by default and is one of the following:

- stored as given (a scalar field);
- `None if x is None else Target(**x)` (a nested field);
- `None if xs is None else list(map(lambda x: Target(**x), xs))` (a list field).

`Decoder.Instantiate` is that constructor for any class, so one set of laws
covers every class. The per-class lemmas apply those laws to each class's
table. The method `DecoderLaws.Construct` builds an instance step by step,
as Python runs the constructors, and is proved equal to `Instantiate`.

Behaviour worth knowing, where the code does less than its type
annotations and docstrings suggest (the model follows the code):

- `Page.items` is annotated `List[T]` (types.py:67), but its items are
  decoded as bare `SupercellApiResponse` objects, whatever the generic
  type. The generic type is only stored as the attribute
  `_page_generic_type`.
- The error path uses `json_response or {}`. Any falsy body (None, an
  empty dict or list, `""`, 0, false) gives the defaults. A truthy body that
  is not a dict raises TypeError.
- `to_string` documents `nl` as the newline sequence (types.py:23), but it
  is not passed to nested objects, and a list always closes on a literal
  newline.
- A payload member named `success` is consumed by the base constructor's
  parameter and does not become an attribute of its own.

## Model

| member | source | states |
|---|---|---|
| Responses.Init | async_supercell_api/types.py:12-15 | the instance's attributes are the success flag under its mangled name followed by each keyword, set one at a time by `setattr` |
| Responses.BaseLayout | async_supercell_api/types.py:12-15 | with distinct keyword names, none of them the mangled name, `vars(self)` is the success flag first and then the keywords in call order |
| Responses.BaseLookup | async_supercell_api/types.py:12-15 | each keyword is an attribute holding its value, a keyword carrying the mangled name replaces the flag, and no other attribute exists |
| Responses.BaseFirst | async_supercell_api/types.py:13 | the mangled success flag is the first attribute whatever the keywords |
| Responses.Truth | async_supercell_api/types.py:57-58 | `bool(r)` is the stored flag exactly when it is a bool (otherwise Python raises TypeError) |
| Responses.Visible | async_supercell_api/types.py:39-47 | the printed attributes are exactly those other than the mangled success flag, in both directions of membership |
| Responses.ItemsVisible | async_supercell_api/types.py:44-48 | the printed items are one `name = value` line per attribute other than the success flag, in `vars(self)` order |
| Responses.ToStringLayout | async_supercell_api/types.py:40-52 | the text is the class name, `(`, `nl`, one indentation more than `level`, the items joined by `,`, `nl` and that indentation, then `nl`, the indentation of `level` and `)` |
| Responses.SuccessHidden | async_supercell_api/types.py:39-47 | two instances of one class whose other attributes agree print the same text |
| Responses.SuccessNotPrinted | async_supercell_api/types.py:12-47 | an instance built by the base constructor prints the same whatever its success value, and its printed attributes are its keywords in order |
| Responses.ListClosesOnNewline | async_supercell_api/types.py:33-36 | a list attribute closes on a literal newline even when `nl` is empty |
| Responses.NestedDefaultNewline | async_supercell_api/types.py:30-31 | a nested object is printed one level deeper with the default newline, not the caller's `nl` |
| Responses.RenderObjectsAt | async_supercell_api/types.py:32-36 | each element of a list of objects is printed by its own `to_string` one level deeper, with the default newline, in list order |
| Responses.ObjectsLayout | async_supercell_api/types.py:32-36 | a list of objects prints as `[`, `nl`, the elements two levels deeper joined by `,` and `nl`, a literal newline, and `]` one level deeper |
| Responses.ReprExample | async_supercell_api/types.py:54-55 | `repr` indents by four spaces, puts one attribute per line and hides the success flag |
| DecoderLaws.Construct | async_supercell_api/clash_royale/types/clans.py:18-24 | building an instance step by step (bind the keywords, run the base constructor, assign each declared field in order) gives the `Instantiate` result, errors included |
| DecoderLaws.Decodes | async_supercell_api/api.py:53 | `Cls(**payload)` succeeds exactly when the keywords bind (no `self` key, no name twice) and every declared field decodes |
| DecoderLaws.FieldsDecoded | async_supercell_api/clash_royale/types/clans.py:18-24 | the declared fields decode exactly when each one does, and then each is stored under its own name with its decoded value, in declaration order |
| DecoderLaws.FieldsKeys | async_supercell_api/clash_royale/types/clans.py:21-24 | the decoded fields carry the declared names in declaration order |
| DecoderLaws.FieldFails | async_supercell_api/clash_royale/types/clans.py:21-24 | one declared field that fails to decode makes the whole construction fail |
| DecoderLaws.ParamMeaning | async_supercell_api/clash_royale/types/clans.py:18-19 | a declared parameter receives the payload member of its name, None when absent, and stores what its kind prescribes |
| DecoderLaws.FieldKindMeaning | async_supercell_api/clash_royale/types/clans.py:21-39 | a scalar is stored as given; a nested field is None or `Target(**x)` for a dict x; a list field is None or each element decoded as the target (an empty dict or string gives an empty list); anything else raises TypeError |
| DecoderLaws.ElementsDecoded | async_supercell_api/clash_royale/types/clans.py:21 | `list(map(lambda x: Target(**x), xs))` succeeds exactly when every element is a dict that decodes, and then gives the decoded elements in order |
| DecoderLaws.DecodedUnique | async_supercell_api/clash_royale/types/clans.py:21 | at most one list of responses matches a JSON list element by element |
| DecoderLaws.DecodedShape | async_supercell_api/clash_royale/types/clans.py:39 | an object decoded as a class is an instance of that class |
| DecoderLaws.FieldDecoded | async_supercell_api/clash_royale/types/clans.py:18-24 | every declared field of a constructed instance is an attribute holding what its kind prescribes for the payload member |
| DecoderLaws.FieldAt | async_supercell_api/clash_royale/types/clans.py:18-24 | the same, for the k-th declared field |
| DecoderLaws.DeclaredLookup | async_supercell_api/clash_royale/types/clans.py:20-24 | the k-th declared field decodes and its attribute holds that value, since the base constructor sets no attribute of a declared name |
| DecoderLaws.ExtrasPreserved | async_supercell_api/types.py:12-15 | every keyword that no constructor takes, `_page_generic_type` among them, is an attribute with its value; other names are absent |
| DecoderLaws.ExtraLookup | async_supercell_api/types.py:12-15 | the lookup of one such keyword finds its value |
| DecoderLaws.AttributeOrder | async_supercell_api/clash_royale/types/clans.py:18-24 | `vars(r)` is the mangled success flag, then the extra keywords in call order, then the declared fields in declaration order |
| DecoderLaws.SuccessFlag | async_supercell_api/types.py:12-13 | a payload's `success` member is consumed by the base parameter, never an attribute of its own; the flag holds it, True when absent, or a member carrying the mangled name |
| DecoderLaws.Truthiness | async_supercell_api/types.py:57-58 | `bool(r)` is True without a `success` member, the member when it is a bool, and a TypeError otherwise |
| DecoderLaws.GenericStored | async_supercell_api/api.py:52-53 | the `_page_generic_type` keyword of a top-level decode is stored as given |
| DecoderLaws.SelfKeyFails | async_supercell_api/types.py:12 | a payload with a `self` member cannot be bound: TypeError |
| DecoderLaws.GenericClashFails | async_supercell_api/api.py:53 | a top-level payload with its own `_page_generic_type` member gets that keyword twice: TypeError |
| DecoderLaws.BaseOmitsDeclared | async_supercell_api/clash_royale/types/clans.py:18-20 | the base constructor receives no keyword that a declared parameter takes |
| DecoderLaws.KwargsDistinct | async_supercell_api/clash_royale/types/clans.py:18-20 | the keywords each constructor passes on have distinct names |
| DecoderLaws.NameUnset | async_supercell_api/clash_royale/types/clans.py:20-24 | when a declared field is assigned, no attribute of its name exists yet, so it is appended |
| Pages.PageNames | async_supercell_api/types.py:65 | `items` and `paging` are ordinary distinct names |
| Pages.PageItems | async_supercell_api/types.py:67 | `items` is None when absent or None; given a list, each element becomes a bare `SupercellApiResponse`, decoded element by element, whatever the generic type |
| Pages.DecodedInstances | async_supercell_api/types.py:67 | responses decoded from a list as a class are all instances of that class |
| Pages.PagePaging | async_supercell_api/types.py:68 | `paging` is stored as the payload gave it, None when absent |
| Pages.ItemsIgnoreGeneric | async_supercell_api/types.py:64-68 | two pages built from one payload with different generic types have the same items and paging |
| Pages.ItemAttrs | async_supercell_api/types.py:67 | an item is a bare base response whose attributes are the element's members other than `success`, which only sets its flag |
| Errors.NewClientError | async_supercell_api/errors.py:4-13 | the constructor run step by step (four assignments, then the setattr loop) gives `ErrorOf` |
| Errors.ErrorRaises | async_supercell_api/errors.py:5-6 | the constructor raises TypeError exactly when a keyword is `self` or a name is given twice |
| Errors.ErrorDefaults | async_supercell_api/errors.py:5-11 | with no keywords: reason, type and detail are None, message is 'Unknown error', and the message is the only exception argument |
| Errors.NamedKeys | async_supercell_api/errors.py:8-11 | the named attributes are reason, message, type and detail, in that order |
| Errors.ErrorLayout | async_supercell_api/errors.py:7-13 | the attributes are the four named ones, then the other keywords in payload order; the given message, null included, is the exception's only argument, the default otherwise |
| Errors.ErrorAttr | async_supercell_api/errors.py:8-13 | each keyword is an attribute holding its value; absent named parameters hold their defaults; nothing else is set |
| Api.LStripMeaning | async_supercell_api/api.py:40 | `lstrip` leaves a suffix that does not begin with the character, removing only that character |
| Api.RStripMeaning | async_supercell_api/api.py:23-24 | `rstrip` leaves a prefix that does not end with the character, removing only that character |
| Api.StripMeaning | async_supercell_api/api.py:23-24 | `strip` leaves a slice that neither begins nor ends with the character, with only that character around it |
| Api.StripIdempotent | async_supercell_api/api.py:23-24 | stripping twice removes nothing more |
| Api.NewApi | async_supercell_api/api.py:22-26 | the stored URL and version neither begin nor end with `/`; the key and debug flag are stored as given (debug False by default) |
| Api.NewApiSlashes | async_supercell_api/api.py:23-24 | slashes added around the URL and the version make no difference |
| Api.DropNoneMeaning | async_supercell_api/api.py:37 | the query keeps exactly the keywords whose value is not None, and is empty exactly when all are None |
| Api.RequestMeaning | async_supercell_api/api.py:36-43 | a GET of `base_url/version/quote(path)`, with `?` and the encoded keywords exactly when some keyword is not None, the key as a bearer token, and the client's debug flag |
| Api.RequestIgnoresLeadingSlash | async_supercell_api/api.py:40 | leading slashes on the endpoint path make no difference |
| Api.StatusRouting | async_supercell_api/api.py:49-58 | a value comes back only for a 2xx status, and a ClientError is raised only outside it |
| Api.StatusBounds | async_supercell_api/api.py:49 | 200 and 299 are successes; 199 and 300 raise |
| Api.ErrorBody | async_supercell_api/api.py:57-58 | outside 2xx a falsy body raises the default ClientError, a dict is spread into the constructor, an unbindable dict or any other value raises TypeError |
| Api.TopLevelObject | async_supercell_api/api.py:50-53 | a 2xx dict is decoded as the object class with the generic type (None by default) stored as `_page_generic_type`; a payload with that key of its own raises TypeError |
| Api.TopLevelList | async_supercell_api/api.py:54-55 | a 2xx list comes back exactly when every element decodes on its own, without the generic type, as the decoded elements in order |
| Api.PassThrough | async_supercell_api/api.py:51-56 | with no object class, or for a value that is neither dict nor list, the JSON value itself comes back |
| Keywords.Lookup | async_supercell_api/types.py:14-15 | a lookup finds a value exactly when the name is present |
| Keywords.SetAttrLookup | async_supercell_api/types.py:15 | after `setattr(obj, k, v)`, k holds v and every other name keeps its value |
| Keywords.SetAttrsAppend | async_supercell_api/types.py:14-15 | with no name repeated, each `setattr` appends, so the attributes are the old ones followed by the keywords |
| Keywords.LookupSetAttrs | async_supercell_api/types.py:14-15 | after the setattr loop each keyword holds its value and every other name keeps its old one |
| Keywords.UnboundLookup | async_supercell_api/types.py:12 | a `**kwargs` parameter receives exactly the keywords that no named parameter takes, with their values |
| RoyaleClansRules.ClanWarLogEntry | async_supercell_api/clash_royale/types/clans.py:5-24 | a decoded `ClanWarLogEntry`: `standings` is None or a list of ClanWarStanding, element by element; `participants` is None or a list of ClanWarParticipant, element by element; every other declared field is stored as the payload gives it (None when absent); other keywords stay attributes |
| RoyaleClans.ClanWarLogEntryNames | async_supercell_api/clash_royale/types/clans.py:5-24 | the declared names of `ClanWarLogEntry.__init__` are distinct, ordinary identifiers (no leading `_`, not `self` or `success`) |
| RoyaleClansRules.ClanWarStanding | async_supercell_api/clash_royale/types/clans.py:27-39 | a decoded `ClanWarStanding`: `clan` is None or a ClanWarClan; every other declared field is stored as the payload gives it (None when absent); other keywords stay attributes |
| RoyaleClans.ClanWarStandingNames | async_supercell_api/clash_royale/types/clans.py:27-39 | the declared names of `ClanWarStanding.__init__` are distinct, ordinary identifiers (no leading `_`, not `self` or `success`) |
| RoyaleClansRules.ClanWarParticipant | async_supercell_api/clash_royale/types/clans.py:42-72 | a decoded `ClanWarParticipant`: every declared field is stored as the payload gives it (None when absent); other keywords stay attributes |
| RoyaleClans.ClanWarParticipantNames | async_supercell_api/clash_royale/types/clans.py:42-72 | the declared names of `ClanWarParticipant.__init__` are distinct, ordinary identifiers (no leading `_`, not `self` or `success`) |
| RoyaleClansRules.ClanWarClan | async_supercell_api/clash_royale/types/clans.py:75-107 | a decoded `ClanWarClan`: every declared field is stored as the payload gives it (None when absent); other keywords stay attributes |
| RoyaleClans.ClanWarClanNames | async_supercell_api/clash_royale/types/clans.py:75-107 | the declared names of `ClanWarClan.__init__` are distinct, ordinary identifiers (no leading `_`, not `self` or `success`) |
| RoyaleClansRules.Clan | async_supercell_api/clash_royale/types/clans.py:110-139 | a decoded `Clan`: `memberList` is None or a list of ClanMember, element by element; `location` is None or a Location; every other declared field is stored as the payload gives it (None when absent); other keywords stay attributes |
| RoyaleClans.ClanNames | async_supercell_api/clash_royale/types/clans.py:110-139 | the declared names of `Clan.__init__` are distinct, ordinary identifiers (no leading `_`, not `self` or `success`) |
| RoyaleClansRules.Location | async_supercell_api/clash_royale/types/clans.py:142-151 | a decoded `Location`: every declared field is stored as the payload gives it (None when absent); other keywords stay attributes |
| RoyaleClans.LocationNames | async_supercell_api/clash_royale/types/clans.py:142-151 | the declared names of `Location.__init__` are distinct, ordinary identifiers (no leading `_`, not `self` or `success`) |
| RoyaleClansRules.ClanMember | async_supercell_api/clash_royale/types/clans.py:154-173 | a decoded `ClanMember`: `arena` is None or a Arena; every other declared field is stored as the payload gives it (None when absent); other keywords stay attributes |
| RoyaleClans.ClanMemberNames | async_supercell_api/clash_royale/types/clans.py:154-173 | the declared names of `ClanMember.__init__` are distinct, ordinary identifiers (no leading `_`, not `self` or `success`) |
| RoyaleClansRules.Arena | async_supercell_api/clash_royale/types/clans.py:176-182 | a decoded `Arena`: every declared field is stored as the payload gives it (None when absent); other keywords stay attributes |
| RoyaleClans.ArenaNames | async_supercell_api/clash_royale/types/clans.py:176-182 | the declared names of `Arena.__init__` are distinct, ordinary identifiers (no leading `_`, not `self` or `success`) |
| RoyaleClansRules.RiverRaceLogEntry | async_supercell_api/clash_royale/types/clans.py:185-192 | a decoded `RiverRaceLogEntry`: `standings` is None or a list of RiverRaceStanding, element by element; every other declared field is stored as the payload gives it (None when absent); other keywords stay attributes |
| RoyaleClans.RiverRaceLogEntryNames | async_supercell_api/clash_royale/types/clans.py:185-192 | the declared names of `RiverRaceLogEntry.__init__` are distinct, ordinary identifiers (no leading `_`, not `self` or `success`) |
| RoyaleClansRules.RiverRaceStanding | async_supercell_api/clash_royale/types/clans.py:195-201 | a decoded `RiverRaceStanding`: `clan` is None or a RiverRaceClan; every other declared field is stored as the payload gives it (None when absent); other keywords stay attributes |
| RoyaleClans.RiverRaceStandingNames | async_supercell_api/clash_royale/types/clans.py:195-201 | the declared names of `RiverRaceStanding.__init__` are distinct, ordinary identifiers (no leading `_`, not `self` or `success`) |
| RoyaleClansRules.RiverRaceClan | async_supercell_api/clash_royale/types/clans.py:204-220 | a decoded `RiverRaceClan`: `participants` is None or a list of RiverRaceParticipant, element by element; every other declared field is stored as the payload gives it (None when absent); other keywords stay attributes |
| RoyaleClans.RiverRaceClanNames | async_supercell_api/clash_royale/types/clans.py:204-220 | the declared names of `RiverRaceClan.__init__` are distinct, ordinary identifiers (no leading `_`, not `self` or `success`) |
| RoyaleClansRules.RiverRaceParticipant | async_supercell_api/clash_royale/types/clans.py:223-235 | a decoded `RiverRaceParticipant`: every declared field is stored as the payload gives it (None when absent); other keywords stay attributes |
| RoyaleClans.RiverRaceParticipantNames | async_supercell_api/clash_royale/types/clans.py:223-235 | the declared names of `RiverRaceParticipant.__init__` are distinct, ordinary identifiers (no leading `_`, not `self` or `success`) |
| RoyaleClansRules.CurrentClanWar | async_supercell_api/clash_royale/types/clans.py:238-248 | a decoded `CurrentClanWar`: `clan` is None or a ClanWarClan; `participants` is None or a list of ClanWarParticipant, element by element; `clans` is None or a list of ClanWarClan, element by element; every other declared field is stored as the payload gives it (None when absent); other keywords stay attributes |
| RoyaleClans.CurrentClanWarNames | async_supercell_api/clash_royale/types/clans.py:238-248 | the declared names of `CurrentClanWar.__init__` are distinct, ordinary identifiers (no leading `_`, not `self` or `success`) |
| RoyaleClansRules.CurrentRiverRace | async_supercell_api/clash_royale/types/clans.py:251-287 | a decoded `CurrentRiverRace`: `clan` is None or a RiverRaceClan; `clans` is None or a list of RiverRaceClan, element by element; `periodLogs` is None or a list of PeriodLog, element by element; every other declared field is stored as the payload gives it (None when absent); other keywords stay attributes |
| RoyaleClans.CurrentRiverRaceNames | async_supercell_api/clash_royale/types/clans.py:251-287 | the declared names of `CurrentRiverRace.__init__` are distinct, ordinary identifiers (no leading `_`, not `self` or `success`) |
| RoyaleClansRules.PeriodLog | async_supercell_api/clash_royale/types/clans.py:290-302 | a decoded `PeriodLog`: `items` is None or a list of PeriodLogEntry, element by element; every other declared field is stored as the payload gives it (None when absent); other keywords stay attributes |
| RoyaleClans.PeriodLogNames | async_supercell_api/clash_royale/types/clans.py:290-302 | the declared names of `PeriodLog.__init__` are distinct, ordinary identifiers (no leading `_`, not `self` or `success`) |
| RoyaleClansRules.PeriodLogEntry | async_supercell_api/clash_royale/types/clans.py:305-339 | a decoded `PeriodLogEntry`: `clan` is None or a PeriodLogEntryClan; every other declared field is stored as the payload gives it (None when absent); other keywords stay attributes |
| RoyaleClans.PeriodLogEntryNames | async_supercell_api/clash_royale/types/clans.py:305-339 | the declared names of `PeriodLogEntry.__init__` are distinct, ordinary identifiers (no leading `_`, not `self` or `success`) |
| RoyaleClansRules.PeriodLogEntryClan | async_supercell_api/clash_royale/types/clans.py:342-351 | a decoded `PeriodLogEntryClan`: every declared field is stored as the payload gives it (None when absent); other keywords stay attributes |
| RoyaleClans.PeriodLogEntryClanNames | async_supercell_api/clash_royale/types/clans.py:342-351 | the declared names of `PeriodLogEntryClan.__init__` are distinct, ordinary identifiers (no leading `_`, not `self` or `success`) |
| RoyalePlayersRules.PlayerBattleData | async_supercell_api/clash_royale/types/players.py:6-20 | a decoded `PlayerBattleData`: `clan` is None or a PlayerClan; `cards` is None or a list of PlayerItemLevel, element by element; every other declared field is stored as the payload gives it (None when absent); other keywords stay attributes |
| RoyalePlayers.PlayerBattleDataNames | async_supercell_api/clash_royale/types/players.py:6-20 | the declared names of `PlayerBattleData.__init__` are distinct, ordinary identifiers (no leading `_`, not `self` or `success`) |
| RoyalePlayersRules.GameMode | async_supercell_api/clash_royale/types/players.py:23-27 | a decoded `GameMode`: every declared field is stored as the payload gives it (None when absent); other keywords stay attributes |
| RoyalePlayers.GameModeNames | async_supercell_api/clash_royale/types/players.py:23-27 | the declared names of `GameMode.__init__` are distinct, ordinary identifiers (no leading `_`, not `self` or `success`) |
| RoyalePlayersRules.Battle | async_supercell_api/clash_royale/types/players.py:30-98 | a decoded `Battle`: `gameMode` is None or a GameMode; `arena` is None or a Arena; `opponent` is None or a list of PlayerBattleData, element by element; `team` is None or a list of PlayerBattleData, element by element; every other declared field is stored as the payload gives it (None when absent); other keywords stay attributes |
| RoyalePlayers.BattleNames | async_supercell_api/clash_royale/types/players.py:30-98 | the declared names of `Battle.__init__` are distinct, ordinary identifiers (no leading `_`, not `self` or `success`) |
| RoyalePlayersRules.Chest | async_supercell_api/clash_royale/types/players.py:101-107 | a decoded `Chest`: every declared field is stored as the payload gives it (None when absent); other keywords stay attributes |
| RoyalePlayers.ChestNames | async_supercell_api/clash_royale/types/players.py:101-107 | the declared names of `Chest.__init__` are distinct, ordinary identifiers (no leading `_`, not `self` or `success`) |
| RoyalePlayersRules.UpcomingChests | async_supercell_api/clash_royale/types/players.py:110-113 | a decoded `UpcomingChests`: `items` is None or a list of Chest, element by element; every other declared field is stored as the payload gives it (None when absent); other keywords stay attributes |
| RoyalePlayers.UpcomingChestsNames | async_supercell_api/clash_royale/types/players.py:110-113 | the declared names of `UpcomingChests.__init__` are distinct, ordinary identifiers (no leading `_`, not `self` or `success`) |
| RoyalePlayersRules.PlayerAchievementProgress | async_supercell_api/clash_royale/types/players.py:116-126 | a decoded `PlayerAchievementProgress`: every declared field is stored as the payload gives it (None when absent); other keywords stay attributes |
| RoyalePlayers.PlayerAchievementProgressNames | async_supercell_api/clash_royale/types/players.py:116-126 | the declared names of `PlayerAchievementProgress.__init__` are distinct, ordinary identifiers (no leading `_`, not `self` or `success`) |
| RoyalePlayersRules.PlayerAchievementBadge | async_supercell_api/clash_royale/types/players.py:129-137 | a decoded `PlayerAchievementBadge`: every declared field is stored as the payload gives it (None when absent); other keywords stay attributes |
| RoyalePlayers.PlayerAchievementBadgeNames | async_supercell_api/clash_royale/types/players.py:129-137 | the declared names of `PlayerAchievementBadge.__init__` are distinct, ordinary identifiers (no leading `_`, not `self` or `success`) |
| RoyalePlayersRules.PlayerItemLevel | async_supercell_api/clash_royale/types/players.py:140-151 | a decoded `PlayerItemLevel`: every declared field is stored as the payload gives it (None when absent); other keywords stay attributes |
| RoyalePlayers.PlayerItemLevelNames | async_supercell_api/clash_royale/types/players.py:140-151 | the declared names of `PlayerItemLevel.__init__` are distinct, ordinary identifiers (no leading `_`, not `self` or `success`) |
| RoyalePlayersRules.LeagueSeasonResult | async_supercell_api/clash_royale/types/players.py:154-161 | a decoded `LeagueSeasonResult`: every declared field is stored as the payload gives it (None when absent); other keywords stay attributes |
| RoyalePlayers.LeagueSeasonResultNames | async_supercell_api/clash_royale/types/players.py:154-161 | the declared names of `LeagueSeasonResult.__init__` are distinct, ordinary identifiers (no leading `_`, not `self` or `success`) |
| RoyalePlayersRules.Item | async_supercell_api/clash_royale/types/players.py:164-171 | a decoded `Item`: every declared field is stored as the payload gives it (None when absent); other keywords stay attributes |
| RoyalePlayers.ItemNames | async_supercell_api/clash_royale/types/players.py:164-171 | the declared names of `Item.__init__` are distinct, ordinary identifiers (no leading `_`, not `self` or `success`) |
| RoyalePlayersRules.PlayerLeagueStatistics | async_supercell_api/clash_royale/types/players.py:174-180 | a decoded `PlayerLeagueStatistics`: `bestSeason` is None or a LeagueSeasonResult; `currentSeason` is None or a LeagueSeasonResult; `previousSeason` is None or a LeagueSeasonResult; every other declared field is stored as the payload gives it (None when absent); other keywords stay attributes |
| RoyalePlayers.PlayerLeagueStatisticsNames | async_supercell_api/clash_royale/types/players.py:174-180 | the declared names of `PlayerLeagueStatistics.__init__` are distinct, ordinary identifiers (no leading `_`, not `self` or `success`) |
| RoyalePlayersRules.PlayerClan | async_supercell_api/clash_royale/types/players.py:183-190 | a decoded `PlayerClan`: every declared field is stored as the payload gives it (None when absent); other keywords stay attributes |
| RoyalePlayers.PlayerClanNames | async_supercell_api/clash_royale/types/players.py:183-190 | the declared names of `PlayerClan.__init__` are distinct, ordinary identifiers (no leading `_`, not `self` or `success`) |
| RoyalePlayersRules.Player | async_supercell_api/clash_royale/types/players.py:193-238 | a decoded `Player`: `clan` is None or a PlayerClan; `arena` is None or a Arena; `leagueStatistics` is None or a PlayerLeagueStatistics; `cards` is None or a list of PlayerItemLevel, element by element; `currentFavouriteCard` is None or a Item; `badges` is None or a list of PlayerAchievementBadge, element by element; `achievements` is None or a list of PlayerAchievementProgress, element by element; `currentDeck` is None or a list of PlayerItemLevel, element by element; every other declared field is stored as the payload gives it (None when absent); other keywords stay attributes |
| RoyalePlayers.PlayerNames | async_supercell_api/clash_royale/types/players.py:193-238 | the declared names of `Player.__init__` are distinct, ordinary identifiers (no leading `_`, not `self` or `success`) |
| RoyaleTournamentsRules.TournamentHeader | async_supercell_api/clash_royale/types/tournaments.py:6-27 | a decoded `TournamentHeader`: `gameMode` is None or a GameMode; every other declared field is stored as the payload gives it (None when absent); other keywords stay attributes |
| RoyaleTournaments.TournamentHeaderNames | async_supercell_api/clash_royale/types/tournaments.py:6-27 | the declared names of `TournamentHeader.__init__` are distinct, ordinary identifiers (no leading `_`, not `self` or `success`) |
| RoyaleTournamentsRules.Tournament | async_supercell_api/clash_royale/types/tournaments.py:30-56 | a decoded `Tournament`: `membersList` is None or a list of TournamentMember, element by element; `gameMode` is None or a GameMode; every other declared field is stored as the payload gives it (None when absent); other keywords stay attributes |
| RoyaleTournaments.TournamentNames | async_supercell_api/clash_royale/types/tournaments.py:30-56 | the declared names of `Tournament.__init__` are distinct, ordinary identifiers (no leading `_`, not `self` or `success`) |
| RoyaleTournamentsRules.TournamentMember | async_supercell_api/clash_royale/types/tournaments.py:59-68 | a decoded `TournamentMember`: `clan` is None or a PlayerClan; every other declared field is stored as the payload gives it (None when absent); other keywords stay attributes |
| RoyaleTournaments.TournamentMemberNames | async_supercell_api/clash_royale/types/tournaments.py:59-68 | the declared names of `TournamentMember.__init__` are distinct, ordinary identifiers (no leading `_`, not `self` or `success`) |
| RoyaleLocationsRules.ClanRanking | async_supercell_api/clash_royale/types/locations.py:6-20 | a decoded `ClanRanking`: `location` is None or a Location; every other declared field is stored as the payload gives it (None when absent); other keywords stay attributes |
| RoyaleLocations.ClanRankingNames | async_supercell_api/clash_royale/types/locations.py:6-20 | the declared names of `ClanRanking.__init__` are distinct, ordinary identifiers (no leading `_`, not `self` or `success`) |
| RoyaleLocationsRules.PlayerRanking | async_supercell_api/clash_royale/types/locations.py:23-35 | a decoded `PlayerRanking`: `clan` is None or a PlayerRankingClan; `arena` is None or a Arena; every other declared field is stored as the payload gives it (None when absent); other keywords stay attributes |
| RoyaleLocations.PlayerRankingNames | async_supercell_api/clash_royale/types/locations.py:23-35 | the declared names of `PlayerRanking.__init__` are distinct, ordinary identifiers (no leading `_`, not `self` or `success`) |
| RoyaleLocationsRules.PlayerRankingClan | async_supercell_api/clash_royale/types/locations.py:38-45 | a decoded `PlayerRankingClan`: every declared field is stored as the payload gives it (None when absent); other keywords stay attributes |
| RoyaleLocations.PlayerRankingClanNames | async_supercell_api/clash_royale/types/locations.py:38-45 | the declared names of `PlayerRankingClan.__init__` are distinct, ordinary identifiers (no leading `_`, not `self` or `success`) |
| RoyaleLocationsRules.LeagueSeason | async_supercell_api/clash_royale/types/locations.py:48-51 | a decoded `LeagueSeason`: every declared field is stored as the payload gives it (None when absent); other keywords stay attributes |
| RoyaleLocations.LeagueSeasonNames | async_supercell_api/clash_royale/types/locations.py:48-51 | the declared names of `LeagueSeason.__init__` are distinct, ordinary identifiers (no leading `_`, not `self` or `success`) |
| RoyaleLocationsRules.LadderTournamentRanking | async_supercell_api/clash_royale/types/locations.py:54-65 | a decoded `LadderTournamentRanking`: `clan` is None or a PlayerRankingClan; every other declared field is stored as the payload gives it (None when absent); other keywords stay attributes |
| RoyaleLocations.LadderTournamentRankingNames | async_supercell_api/clash_royale/types/locations.py:54-65 | the declared names of `LadderTournamentRanking.__init__` are distinct, ordinary identifiers (no leading `_`, not `self` or `success`) |
| RoyaleGlobalTournamentsRules.LadderTournament | async_supercell_api/clash_royale/types/global_tournaments.py:6-31 | a decoded `LadderTournament`: `gameMode` is None or a GameMode; `milestoneRewards` is None or a list of SurvivalMilestoneReward, element by element; `freeTierRewards` is None or a list of SurvivalMilestoneReward, element by element; `topRankReward` is None or a list of SurvivalMilestoneReward, element by element; every other declared field is stored as the payload gives it (None when absent); other keywords stay attributes |
| RoyaleGlobalTournaments.LadderTournamentNames | async_supercell_api/clash_royale/types/global_tournaments.py:6-31 | the declared names of `LadderTournament.__init__` are distinct, ordinary identifiers (no leading `_`, not `self` or `success`) |
| RoyaleGlobalTournamentsRules.SurvivalMilestoneReward | async_supercell_api/clash_royale/types/global_tournaments.py:34-45 | a decoded `SurvivalMilestoneReward`: `card` is None or a Item; every other declared field is stored as the payload gives it (None when absent); other keywords stay attributes |
| RoyaleGlobalTournaments.SurvivalMilestoneRewardNames | async_supercell_api/clash_royale/types/global_tournaments.py:34-45 | the declared names of `SurvivalMilestoneReward.__init__` are distinct, ordinary identifiers (no leading `_`, not `self` or `success`) |
| ClashClansRules.ClanWarLeagueGroup | async_supercell_api/clash_of_clans/types/clans.py:8-16 | a decoded `ClanWarLeagueGroup`: `clans` is None or a list of ClanWarLeagueClan, element by element; `rounds` is None or a list of ClanWarLeagueRound, element by element; every other declared field is stored as the payload gives it (None when absent); other keywords stay attributes |
| ClashClans.ClanWarLeagueGroupNames | async_supercell_api/clash_of_clans/types/clans.py:8-16 | the declared names of `ClanWarLeagueGroup.__init__` are distinct, ordinary identifiers (no leading `_`, not `self` or `success`) |
| ClashClansRules.ClanWarLeagueClan | async_supercell_api/clash_of_clans/types/clans.py:19-27 | a decoded `ClanWarLeagueClan`: `members` is None or a list of ClanWarLeagueClanMember, element by element; every other declared field is stored as the payload gives it (None when absent); other keywords stay attributes |
| ClashClans.ClanWarLeagueClanNames | async_supercell_api/clash_of_clans/types/clans.py:19-27 | the declared names of `ClanWarLeagueClan.__init__` are distinct, ordinary identifiers (no leading `_`, not `self` or `success`) |
| ClashClansRules.ClanWarLeagueRound | async_supercell_api/clash_of_clans/types/clans.py:30-33 | a decoded `ClanWarLeagueRound`: every declared field is stored as the payload gives it (None when absent); other keywords stay attributes |
| ClashClans.ClanWarLeagueRoundNames | async_supercell_api/clash_of_clans/types/clans.py:30-33 | the declared names of `ClanWarLeagueRound.__init__` are distinct, ordinary identifiers (no leading `_`, not `self` or `success`) |
| ClashClansRules.ClanWarLeagueClanMember | async_supercell_api/clash_of_clans/types/clans.py:36-42 | a decoded `ClanWarLeagueClanMember`: every declared field is stored as the payload gives it (None when absent); other keywords stay attributes |
| ClashClans.ClanWarLeagueClanMemberNames | async_supercell_api/clash_of_clans/types/clans.py:36-42 | the declared names of `ClanWarLeagueClanMember.__init__` are distinct, ordinary identifiers (no leading `_`, not `self` or `success`) |
| ClashClansRules.ClanWarLogEntry | async_supercell_api/clash_of_clans/types/clans.py:45-55 | a decoded `ClanWarLogEntry`: `clan` is None or a WarClan; `opponent` is None or a WarClan; every other declared field is stored as the payload gives it (None when absent); other keywords stay attributes |
| ClashClans.ClanWarLogEntryNames | async_supercell_api/clash_of_clans/types/clans.py:45-55 | the declared names of `ClanWarLogEntry.__init__` are distinct, ordinary identifiers (no leading `_`, not `self` or `success`) |
| ClashClansRules.WarClan | async_supercell_api/clash_of_clans/types/clans.py:58-72 | a decoded `WarClan`: `members` is None or a list of ClanWarMember, element by element; every other declared field is stored as the payload gives it (None when absent); other keywords stay attributes |
| ClashClans.WarClanNames | async_supercell_api/clash_of_clans/types/clans.py:58-72 | the declared names of `WarClan.__init__` are distinct, ordinary identifiers (no leading `_`, not `self` or `success`) |
| ClashClansRules.ClanWarMember | async_supercell_api/clash_of_clans/types/clans.py:75-86 | a decoded `ClanWarMember`: `bestOpponentAttack` is None or a ClanWarAttack; `attacks` is None or a list of ClanWarAttack, element by element; every other declared field is stored as the payload gives it (None when absent); other keywords stay attributes |
| ClashClans.ClanWarMemberNames | async_supercell_api/clash_of_clans/types/clans.py:75-86 | the declared names of `ClanWarMember.__init__` are distinct, ordinary identifiers (no leading `_`, not `self` or `success`) |
| ClashClansRules.ClanWarAttack | async_supercell_api/clash_of_clans/types/clans.py:89-99 | a decoded `ClanWarAttack`: every declared field is stored as the payload gives it (None when absent); other keywords stay attributes |
| ClashClans.ClanWarAttackNames | async_supercell_api/clash_of_clans/types/clans.py:89-99 | the declared names of `ClanWarAttack.__init__` are distinct, ordinary identifiers (no leading `_`, not `self` or `success`) |
| ClashClansRules.Clan | async_supercell_api/clash_of_clans/types/clans.py:102-137 | a decoded `Clan`: `warLeague` is None or a WarLeague; `memberList` is None or a list of ClanMember, element by element; `chatLanguage` is None or a Language; `labels` is None or a list of Label, element by element; `location` is None or a Location; every other declared field is stored as the payload gives it (None when absent); other keywords stay attributes |
| ClashClans.ClanNames | async_supercell_api/clash_of_clans/types/clans.py:102-137 | the declared names of `Clan.__init__` are distinct, ordinary identifiers (no leading `_`, not `self` or `success`) |
| ClashClansRules.ClanWar | async_supercell_api/clash_of_clans/types/clans.py:140-153 | a decoded `ClanWar`: `clan` is None or a WarClan; `opponent` is None or a WarClan; every other declared field is stored as the payload gives it (None when absent); other keywords stay attributes |
| ClashClans.ClanWarNames | async_supercell_api/clash_of_clans/types/clans.py:140-153 | the declared names of `ClanWar.__init__` are distinct, ordinary identifiers (no leading `_`, not `self` or `success`) |
| ClashClansRules.Language | async_supercell_api/clash_of_clans/types/clans.py:156-162 | a decoded `Language`: every declared field is stored as the payload gives it (None when absent); other keywords stay attributes |
| ClashClans.LanguageNames | async_supercell_api/clash_of_clans/types/clans.py:156-162 | the declared names of `Language.__init__` are distinct, ordinary identifiers (no leading `_`, not `self` or `success`) |
| ClashClansRules.ClanMember | async_supercell_api/clash_of_clans/types/clans.py:165-182 | a decoded `ClanMember`: `league` is None or a League; every other declared field is stored as the payload gives it (None when absent); other keywords stay attributes |
| ClashClans.ClanMemberNames | async_supercell_api/clash_of_clans/types/clans.py:165-182 | the declared names of `ClanMember.__init__` are distinct, ordinary identifiers (no leading `_`, not `self` or `success`) |
| ClashPlayersRules.Player | async_supercell_api/clash_of_clans/types/players.py:7-49 | a decoded `Player`: `league` is None or a League; `clan` is None or a PlayerClan; `legendStatistics` is None or a PlayerLegendStatistics; `troops` is None or a list of PlayerItemLevel, element by element; `heroes` is None or a list of PlayerItemLevel, element by element; `spells` is None or a list of PlayerItemLevel, element by element; `labels` is None or a list of Label, element by element; `achievements` is None or a list of PlayerAchievementProgress, element by element; every other declared field is stored as the payload gives it (None when absent); other keywords stay attributes |
| ClashPlayers.PlayerNames | async_supercell_api/clash_of_clans/types/players.py:7-49 | the declared names of `Player.__init__` are distinct, ordinary identifiers (no leading `_`, not `self` or `success`) |
| ClashPlayersRules.PlayerClan | async_supercell_api/clash_of_clans/types/players.py:52-59 | a decoded `PlayerClan`: every declared field is stored as the payload gives it (None when absent); other keywords stay attributes |
| ClashPlayers.PlayerClanNames | async_supercell_api/clash_of_clans/types/players.py:52-59 | the declared names of `PlayerClan.__init__` are distinct, ordinary identifiers (no leading `_`, not `self` or `success`) |
| ClashPlayersRules.PlayerLegendStatistics | async_supercell_api/clash_of_clans/types/players.py:62-76 | a decoded `PlayerLegendStatistics`: `previousVersusSeason` is None or a LegendLeagueTournamentSeasonResult; `previousSeason` is None or a LegendLeagueTournamentSeasonResult; `bestSeason` is None or a LegendLeagueTournamentSeasonResult; `currentSeason` is None or a LegendLeagueTournamentSeasonResult; `bestVersusSeason` is None or a LegendLeagueTournamentSeasonResult; every other declared field is stored as the payload gives it (None when absent); other keywords stay attributes |
| ClashPlayers.PlayerLegendStatisticsNames | async_supercell_api/clash_of_clans/types/players.py:62-76 | the declared names of `PlayerLegendStatistics.__init__` are distinct, ordinary identifiers (no leading `_`, not `self` or `success`) |
| ClashPlayersRules.LegendLeagueTournamentSeasonResult | async_supercell_api/clash_of_clans/types/players.py:79-84 | a decoded `LegendLeagueTournamentSeasonResult`: every declared field is stored as the payload gives it (None when absent); other keywords stay attributes |
| ClashPlayers.LegendLeagueTournamentSeasonResultNames | async_supercell_api/clash_of_clans/types/players.py:79-84 | the declared names of `LegendLeagueTournamentSeasonResult.__init__` are distinct, ordinary identifiers (no leading `_`, not `self` or `success`) |
| ClashPlayersRules.PlayerItemLevel | async_supercell_api/clash_of_clans/types/players.py:87-95 | a decoded `PlayerItemLevel`: every declared field is stored as the payload gives it (None when absent); other keywords stay attributes |
| ClashPlayers.PlayerItemLevelNames | async_supercell_api/clash_of_clans/types/players.py:87-95 | the declared names of `PlayerItemLevel.__init__` are distinct, ordinary identifiers (no leading `_`, not `self` or `success`) |
| ClashPlayersRules.PlayerAchievementProgress | async_supercell_api/clash_of_clans/types/players.py:98-109 | a decoded `PlayerAchievementProgress`: every declared field is stored as the payload gives it (None when absent); other keywords stay attributes |
| ClashPlayers.PlayerAchievementProgressNames | async_supercell_api/clash_of_clans/types/players.py:98-109 | the declared names of `PlayerAchievementProgress.__init__` are distinct, ordinary identifiers (no leading `_`, not `self` or `success`) |
| ClashPlayersRules.VerifyTokenResponse | async_supercell_api/clash_of_clans/types/players.py:112-117 | a decoded `VerifyTokenResponse`: every declared field is stored as the payload gives it (None when absent); other keywords stay attributes |
| ClashPlayers.VerifyTokenResponseNames | async_supercell_api/clash_of_clans/types/players.py:112-117 | the declared names of `VerifyTokenResponse.__init__` are distinct, ordinary identifiers (no leading `_`, not `self` or `success`) |
| ClashLocationsRules.ClanRanking | async_supercell_api/clash_of_clans/types/locations.py:6-20 | a decoded `ClanRanking`: `location` is None or a Location; every other declared field is stored as the payload gives it (None when absent); other keywords stay attributes |
| ClashLocations.ClanRankingNames | async_supercell_api/clash_of_clans/types/locations.py:6-20 | the declared names of `ClanRanking.__init__` are distinct, ordinary identifiers (no leading `_`, not `self` or `success`) |
| ClashLocationsRules.Location | async_supercell_api/clash_of_clans/types/locations.py:23-31 | a decoded `Location`: every declared field is stored as the payload gives it (None when absent); other keywords stay attributes |
| ClashLocations.LocationNames | async_supercell_api/clash_of_clans/types/locations.py:23-31 | the declared names of `Location.__init__` are distinct, ordinary identifiers (no leading `_`, not `self` or `success`) |
| ClashLocationsRules.ClanVersusRanking | async_supercell_api/clash_of_clans/types/locations.py:34-38 | a decoded `ClanVersusRanking`: every declared field is stored as the payload gives it (None when absent); other keywords stay attributes |
| ClashLocations.ClanVersusRankingNames | async_supercell_api/clash_of_clans/types/locations.py:34-38 | the declared names of `ClanVersusRanking.__init__` are distinct, ordinary identifiers (no leading `_`, not `self` or `success`) |
| ClashLocationsRules.PlayerVersusRanking | async_supercell_api/clash_of_clans/types/locations.py:41-53 | a decoded `PlayerVersusRanking`: `clan` is None or a PlayerRankingClan; every other declared field is stored as the payload gives it (None when absent); other keywords stay attributes |
| ClashLocations.PlayerVersusRankingNames | async_supercell_api/clash_of_clans/types/locations.py:41-53 | the declared names of `PlayerVersusRanking.__init__` are distinct, ordinary identifiers (no leading `_`, not `self` or `success`) |
| ClashLeaguesRules.League | async_supercell_api/clash_of_clans/types/leagues.py:5-11 | a decoded `League`: every declared field is stored as the payload gives it (None when absent); other keywords stay attributes |
| ClashLeagues.LeagueNames | async_supercell_api/clash_of_clans/types/leagues.py:5-11 | the declared names of `League.__init__` are distinct, ordinary identifiers (no leading `_`, not `self` or `success`) |
| ClashLeaguesRules.PlayerRanking | async_supercell_api/clash_of_clans/types/leagues.py:14-29 | a decoded `PlayerRanking`: `league` is None or a League; `clan` is None or a PlayerRankingClan; every other declared field is stored as the payload gives it (None when absent); other keywords stay attributes |
| ClashLeagues.PlayerRankingNames | async_supercell_api/clash_of_clans/types/leagues.py:14-29 | the declared names of `PlayerRanking.__init__` are distinct, ordinary identifiers (no leading `_`, not `self` or `success`) |
| ClashLeaguesRules.PlayerRankingClan | async_supercell_api/clash_of_clans/types/leagues.py:32-38 | a decoded `PlayerRankingClan`: every declared field is stored as the payload gives it (None when absent); other keywords stay attributes |
| ClashLeagues.PlayerRankingClanNames | async_supercell_api/clash_of_clans/types/leagues.py:32-38 | the declared names of `PlayerRankingClan.__init__` are distinct, ordinary identifiers (no leading `_`, not `self` or `success`) |
| ClashLeaguesRules.LeagueSeason | async_supercell_api/clash_of_clans/types/leagues.py:41-44 | a decoded `LeagueSeason`: every declared field is stored as the payload gives it (None when absent); other keywords stay attributes |
| ClashLeagues.LeagueSeasonNames | async_supercell_api/clash_of_clans/types/leagues.py:41-44 | the declared names of `LeagueSeason.__init__` are distinct, ordinary identifiers (no leading `_`, not `self` or `success`) |
| ClashLeaguesRules.WarLeague | async_supercell_api/clash_of_clans/types/leagues.py:47-51 | a decoded `WarLeague`: every declared field is stored as the payload gives it (None when absent); other keywords stay attributes |
| ClashLeagues.WarLeagueNames | async_supercell_api/clash_of_clans/types/leagues.py:47-51 | the declared names of `WarLeague.__init__` are distinct, ordinary identifiers (no leading `_`, not `self` or `success`) |
| ClashLabelsRules.Label | async_supercell_api/clash_of_clans/types/labels.py:5-11 | a decoded `Label`: every declared field is stored as the payload gives it (None when absent); other keywords stay attributes |
| ClashLabels.LabelNames | async_supercell_api/clash_of_clans/types/labels.py:5-11 | the declared names of `Label.__init__` are distinct, ordinary identifiers (no leading `_`, not `self` or `success`) |
| Responses.ToString | async_supercell_api/types.py:17-52 | `to_string`: the class name, `(`, the visible attributes one per line, `)`; its laws are `ToStringLayout`, `ItemsVisible` and `SuccessHidden` |
| Responses.Items | async_supercell_api/types.py:44-48 | the `name = value` lines for the attributes other than the mangled flag, in order; characterised by `ItemsVisible` |
| Responses.Render | async_supercell_api/types.py:29-37 | the inner `recursion`: a nested object by its own `to_string` one level deeper with the default newline, a list laid out in brackets, anything else by `str`; see `ObjectsLayout`, `JsonsLayout`, `NestedDefaultNewline` |
| Responses.RenderObjects | async_supercell_api/types.py:34-35 | `recursion` on each decoded element of a list; characterised by `RenderObjectsAt` |
| Responses.RenderJson | async_supercell_api/types.py:32-37 | `recursion` on a raw JSON value: lists laid out, all else by `str`; characterised by `JsonsLayout` |
| Responses.RenderJsons | async_supercell_api/types.py:34-35 | `recursion` on each element of a raw JSON list; characterised by `RenderJsonsAt` |
| Responses.RenderJsonsAt | async_supercell_api/types.py:34-35 | each element of a raw JSON list is printed one level deeper with the caller's `nl`, in list order |
| Responses.JsonsLayout | async_supercell_api/types.py:32-37 | a raw JSON list prints as `[`, `nl`, the elements one level deeper joined by `,` and `nl`, a literal newline and `]`; any other raw value is printed by `str` |
| Responses.ListText | async_supercell_api/types.py:33-36 | the bracketed list text shared by both kinds of list |
| Responses.Repr | async_supercell_api/types.py:54-55 | `repr(r)` is `to_string` at level 0 with four spaces and `\n`; see `ReprExample` |
| Responses.BaseAttrs | async_supercell_api/types.py:12-15 | `vars(self)` after the base constructor; characterised by `BaseLayout`, `BaseLookup`, `BaseFirst` |
| Decoder.Instantiate | async_supercell_api/types.py:12-15 | `Cls(**payload, ...)` for any class: bind the keywords, run the base constructor on the ones no declared parameter takes, append the decoded declared fields; characterised by `Decodes`, `AttributeOrder`, `FieldDecoded`, `ExtrasPreserved` and equal to `Construct` |
| Decoder.DecodeFields | async_supercell_api/clash_royale/types/clans.py:21-24 | the declared fields assigned in order; characterised by `FieldsDecoded` |
| Decoder.Param | async_supercell_api/clash_royale/types/clans.py:18-19 | the payload member a declared parameter receives, None (its default) when absent |
| Decoder.DecodeParam | async_supercell_api/clash_royale/types/clans.py:18-24 | a declared field's stored value; characterised by `ParamMeaning` |
| Decoder.DecodeField | async_supercell_api/clash_royale/types/clans.py:21-39 | `None if x is None else Target(**x)` and `None if xs is None else list(map(...))`; characterised by `FieldKindMeaning` |
| Decoder.DecodeObject | async_supercell_api/clash_royale/types/clans.py:39 | `Target(**x)`, which needs a dict; see `DecodedShape` |
| Decoder.DecodeElements | async_supercell_api/clash_royale/types/clans.py:21 | `list(map(lambda x: Target(**x), xs))`; characterised by `ElementsDecoded` |
| Api.LStrip | async_supercell_api/api.py:40 | `str.lstrip`; characterised by `LStripMeaning` |
| Api.RStrip | async_supercell_api/api.py:23-24 | `str.rstrip`; characterised by `RStripMeaning` |
| Api.Strip | async_supercell_api/api.py:23-24 | `str.strip`; characterised by `StripMeaning`, `StripIdempotent` |
| Api.DropNone | async_supercell_api/api.py:37 | the dict comprehension dropping None values; characterised by `DropNoneMeaning`, `DropNoneConcat`, `DropNoneOne` |
| Api.DropNoneConcat | async_supercell_api/api.py:37 | dropping None values distributes over concatenation, so the kept keywords keep their order |
| Api.DropNoneOne | async_supercell_api/api.py:37 | a single keyword is kept exactly when its value is not None |
| Api.ApiRequest | async_supercell_api/api.py:36-43 | the request `make_api_request` hands to `make_request`; characterised by `RequestMeaning`, `RequestIgnoresLeadingSlash` |
| Api.CreateObject | async_supercell_api/api.py:46-58 | `create_object`: status routing, then decode, pass-through or `ClientError`; characterised by `StatusRouting`, `StatusBounds`, `ErrorBody`, `TopLevelObject`, `TopLevelList`, `PassThrough` |
| Errors.ErrorOf | async_supercell_api/errors.py:4-13 | `ClientError(**kwargs)`; characterised by `ErrorRaises`, `ErrorDefaults`, `ErrorLayout`, `ErrorAttr`, and equal to `NewClientError` |
| Keywords.SetAttr | async_supercell_api/types.py:15 | `setattr` on an ordered `vars()`: an existing name keeps its place, a new one is appended; see `SetAttrLookup` |
| Keywords.SetAttrs | async_supercell_api/types.py:14-15 | the setattr loop; see `SetAttrsAppend`, `LookupSetAttrs` |
| Keywords.Unbound | async_supercell_api/types.py:12 | what a `**kwargs` parameter receives; see `UnboundLookup` |
| Keywords.Bindable | async_supercell_api/types.py:12 | a call binds when no keyword is `self` and no name repeats |
| Shapes.BaseResponse | async_supercell_api/types.py:4-15 | `SupercellApiResponse`: no declared fields |
| Shapes.Page | async_supercell_api/types.py:64-68 | `Page`: `items` a list of bare `SupercellApiResponse`, `paging` stored as given; see `Pages.PageItems`, `Pages.PagePaging` |
| RoyaleClans.ClanWarLogEntry | async_supercell_api/clash_royale/types/clans.py:5-24 | `ClanWarLogEntry.__init__`: its declared parameters in assignment order, each scalar, nested or a list with its target class |
| RoyaleClans.ClanWarStanding | async_supercell_api/clash_royale/types/clans.py:27-39 | `ClanWarStanding.__init__`: its declared parameters in assignment order, each scalar, nested or a list with its target class |
| RoyaleClans.ClanWarParticipant | async_supercell_api/clash_royale/types/clans.py:42-72 | `ClanWarParticipant.__init__`: its declared parameters in assignment order, each scalar, nested or a list with its target class |
| RoyaleClans.ClanWarClan | async_supercell_api/clash_royale/types/clans.py:75-107 | `ClanWarClan.__init__`: its declared parameters in assignment order, each scalar, nested or a list with its target class |
| RoyaleClans.Clan | async_supercell_api/clash_royale/types/clans.py:110-139 | `Clan.__init__`: its declared parameters in assignment order, each scalar, nested or a list with its target class |
| RoyaleClans.Location | async_supercell_api/clash_royale/types/clans.py:142-151 | `Location.__init__`: its declared parameters in assignment order, each scalar, nested or a list with its target class |
| RoyaleClans.ClanMember | async_supercell_api/clash_royale/types/clans.py:154-173 | `ClanMember.__init__`: its declared parameters in assignment order, each scalar, nested or a list with its target class |
| RoyaleClans.Arena | async_supercell_api/clash_royale/types/clans.py:176-182 | `Arena.__init__`: its declared parameters in assignment order, each scalar, nested or a list with its target class |
| RoyaleClans.RiverRaceLogEntry | async_supercell_api/clash_royale/types/clans.py:185-192 | `RiverRaceLogEntry.__init__`: its declared parameters in assignment order, each scalar, nested or a list with its target class |
| RoyaleClans.RiverRaceStanding | async_supercell_api/clash_royale/types/clans.py:195-201 | `RiverRaceStanding.__init__`: its declared parameters in assignment order, each scalar, nested or a list with its target class |
| RoyaleClans.RiverRaceClan | async_supercell_api/clash_royale/types/clans.py:204-220 | `RiverRaceClan.__init__`: its declared parameters in assignment order, each scalar, nested or a list with its target class |
| RoyaleClans.RiverRaceParticipant | async_supercell_api/clash_royale/types/clans.py:223-235 | `RiverRaceParticipant.__init__`: its declared parameters in assignment order, each scalar, nested or a list with its target class |
| RoyaleClans.CurrentClanWar | async_supercell_api/clash_royale/types/clans.py:238-248 | `CurrentClanWar.__init__`: its declared parameters in assignment order, each scalar, nested or a list with its target class |
| RoyaleClans.CurrentRiverRace | async_supercell_api/clash_royale/types/clans.py:251-287 | `CurrentRiverRace.__init__`: its declared parameters in assignment order, each scalar, nested or a list with its target class |
| RoyaleClans.PeriodLog | async_supercell_api/clash_royale/types/clans.py:290-302 | `PeriodLog.__init__`: its declared parameters in assignment order, each scalar, nested or a list with its target class |
| RoyaleClans.PeriodLogEntry | async_supercell_api/clash_royale/types/clans.py:305-339 | `PeriodLogEntry.__init__`: its declared parameters in assignment order, each scalar, nested or a list with its target class |
| RoyaleClans.PeriodLogEntryClan | async_supercell_api/clash_royale/types/clans.py:342-351 | `PeriodLogEntryClan.__init__`: its declared parameters in assignment order, each scalar, nested or a list with its target class |
| RoyalePlayers.PlayerBattleData | async_supercell_api/clash_royale/types/players.py:6-20 | `PlayerBattleData.__init__`: its declared parameters in assignment order, each scalar, nested or a list with its target class |
| RoyalePlayers.GameMode | async_supercell_api/clash_royale/types/players.py:23-27 | `GameMode.__init__`: its declared parameters in assignment order, each scalar, nested or a list with its target class |
| RoyalePlayers.Battle | async_supercell_api/clash_royale/types/players.py:30-98 | `Battle.__init__`: its declared parameters in assignment order, each scalar, nested or a list with its target class |
| RoyalePlayers.Chest | async_supercell_api/clash_royale/types/players.py:101-107 | `Chest.__init__`: its declared parameters in assignment order, each scalar, nested or a list with its target class |
| RoyalePlayers.UpcomingChests | async_supercell_api/clash_royale/types/players.py:110-113 | `UpcomingChests.__init__`: its declared parameters in assignment order, each scalar, nested or a list with its target class |
| RoyalePlayers.PlayerAchievementProgress | async_supercell_api/clash_royale/types/players.py:116-126 | `PlayerAchievementProgress.__init__`: its declared parameters in assignment order, each scalar, nested or a list with its target class |
| RoyalePlayers.PlayerAchievementBadge | async_supercell_api/clash_royale/types/players.py:129-137 | `PlayerAchievementBadge.__init__`: its declared parameters in assignment order, each scalar, nested or a list with its target class |
| RoyalePlayers.PlayerItemLevel | async_supercell_api/clash_royale/types/players.py:140-151 | `PlayerItemLevel.__init__`: its declared parameters in assignment order, each scalar, nested or a list with its target class |
| RoyalePlayers.LeagueSeasonResult | async_supercell_api/clash_royale/types/players.py:154-161 | `LeagueSeasonResult.__init__`: its declared parameters in assignment order, each scalar, nested or a list with its target class |
| RoyalePlayers.Item | async_supercell_api/clash_royale/types/players.py:164-171 | `Item.__init__`: its declared parameters in assignment order, each scalar, nested or a list with its target class |
| RoyalePlayers.PlayerLeagueStatistics | async_supercell_api/clash_royale/types/players.py:174-180 | `PlayerLeagueStatistics.__init__`: its declared parameters in assignment order, each scalar, nested or a list with its target class |
| RoyalePlayers.PlayerClan | async_supercell_api/clash_royale/types/players.py:183-190 | `PlayerClan.__init__`: its declared parameters in assignment order, each scalar, nested or a list with its target class |
| RoyalePlayers.Player | async_supercell_api/clash_royale/types/players.py:193-238 | `Player.__init__`: its declared parameters in assignment order, each scalar, nested or a list with its target class |
| RoyaleTournaments.TournamentHeader | async_supercell_api/clash_royale/types/tournaments.py:6-27 | `TournamentHeader.__init__`: its declared parameters in assignment order, each scalar, nested or a list with its target class |
| RoyaleTournaments.Tournament | async_supercell_api/clash_royale/types/tournaments.py:30-56 | `Tournament.__init__`: its declared parameters in assignment order, each scalar, nested or a list with its target class |
| RoyaleTournaments.TournamentMember | async_supercell_api/clash_royale/types/tournaments.py:59-68 | `TournamentMember.__init__`: its declared parameters in assignment order, each scalar, nested or a list with its target class |
| RoyaleLocations.ClanRanking | async_supercell_api/clash_royale/types/locations.py:6-20 | `ClanRanking.__init__`: its declared parameters in assignment order, each scalar, nested or a list with its target class |
| RoyaleLocations.PlayerRanking | async_supercell_api/clash_royale/types/locations.py:23-35 | `PlayerRanking.__init__`: its declared parameters in assignment order, each scalar, nested or a list with its target class |
| RoyaleLocations.PlayerRankingClan | async_supercell_api/clash_royale/types/locations.py:38-45 | `PlayerRankingClan.__init__`: its declared parameters in assignment order, each scalar, nested or a list with its target class |
| RoyaleLocations.LeagueSeason | async_supercell_api/clash_royale/types/locations.py:48-51 | `LeagueSeason.__init__`: its declared parameters in assignment order, each scalar, nested or a list with its target class |
| RoyaleLocations.LadderTournamentRanking | async_supercell_api/clash_royale/types/locations.py:54-65 | `LadderTournamentRanking.__init__`: its declared parameters in assignment order, each scalar, nested or a list with its target class |
| RoyaleGlobalTournaments.LadderTournament | async_supercell_api/clash_royale/types/global_tournaments.py:6-31 | `LadderTournament.__init__`: its declared parameters in assignment order, each scalar, nested or a list with its target class |
| RoyaleGlobalTournaments.SurvivalMilestoneReward | async_supercell_api/clash_royale/types/global_tournaments.py:34-45 | `SurvivalMilestoneReward.__init__`: its declared parameters in assignment order, each scalar, nested or a list with its target class |
| ClashClans.ClanWarLeagueGroup | async_supercell_api/clash_of_clans/types/clans.py:8-16 | `ClanWarLeagueGroup.__init__`: its declared parameters in assignment order, each scalar, nested or a list with its target class |
| ClashClans.ClanWarLeagueClan | async_supercell_api/clash_of_clans/types/clans.py:19-27 | `ClanWarLeagueClan.__init__`: its declared parameters in assignment order, each scalar, nested or a list with its target class |
| ClashClans.ClanWarLeagueRound | async_supercell_api/clash_of_clans/types/clans.py:30-33 | `ClanWarLeagueRound.__init__`: its declared parameters in assignment order, each scalar, nested or a list with its target class |
| ClashClans.ClanWarLeagueClanMember | async_supercell_api/clash_of_clans/types/clans.py:36-42 | `ClanWarLeagueClanMember.__init__`: its declared parameters in assignment order, each scalar, nested or a list with its target class |
| ClashClans.ClanWarLogEntry | async_supercell_api/clash_of_clans/types/clans.py:45-55 | `ClanWarLogEntry.__init__`: its declared parameters in assignment order, each scalar, nested or a list with its target class |
| ClashClans.WarClan | async_supercell_api/clash_of_clans/types/clans.py:58-72 | `WarClan.__init__`: its declared parameters in assignment order, each scalar, nested or a list with its target class |
| ClashClans.ClanWarMember | async_supercell_api/clash_of_clans/types/clans.py:75-86 | `ClanWarMember.__init__`: its declared parameters in assignment order, each scalar, nested or a list with its target class |
| ClashClans.ClanWarAttack | async_supercell_api/clash_of_clans/types/clans.py:89-99 | `ClanWarAttack.__init__`: its declared parameters in assignment order, each scalar, nested or a list with its target class |
| ClashClans.Clan | async_supercell_api/clash_of_clans/types/clans.py:102-137 | `Clan.__init__`: its declared parameters in assignment order, each scalar, nested or a list with its target class |
| ClashClans.ClanWar | async_supercell_api/clash_of_clans/types/clans.py:140-153 | `ClanWar.__init__`: its declared parameters in assignment order, each scalar, nested or a list with its target class |
| ClashClans.Language | async_supercell_api/clash_of_clans/types/clans.py:156-162 | `Language.__init__`: its declared parameters in assignment order, each scalar, nested or a list with its target class |
| ClashClans.ClanMember | async_supercell_api/clash_of_clans/types/clans.py:165-182 | `ClanMember.__init__`: its declared parameters in assignment order, each scalar, nested or a list with its target class |
| ClashPlayers.Player | async_supercell_api/clash_of_clans/types/players.py:7-49 | `Player.__init__`: its declared parameters in assignment order, each scalar, nested or a list with its target class |
| ClashPlayers.PlayerClan | async_supercell_api/clash_of_clans/types/players.py:52-59 | `PlayerClan.__init__`: its declared parameters in assignment order, each scalar, nested or a list with its target class |
| ClashPlayers.PlayerLegendStatistics | async_supercell_api/clash_of_clans/types/players.py:62-76 | `PlayerLegendStatistics.__init__`: its declared parameters in assignment order, each scalar, nested or a list with its target class |
| ClashPlayers.LegendLeagueTournamentSeasonResult | async_supercell_api/clash_of_clans/types/players.py:79-84 | `LegendLeagueTournamentSeasonResult.__init__`: its declared parameters in assignment order, each scalar, nested or a list with its target class |
| ClashPlayers.PlayerItemLevel | async_supercell_api/clash_of_clans/types/players.py:87-95 | `PlayerItemLevel.__init__`: its declared parameters in assignment order, each scalar, nested or a list with its target class |
| ClashPlayers.PlayerAchievementProgress | async_supercell_api/clash_of_clans/types/players.py:98-109 | `PlayerAchievementProgress.__init__`: its declared parameters in assignment order, each scalar, nested or a list with its target class |
| ClashPlayers.VerifyTokenResponse | async_supercell_api/clash_of_clans/types/players.py:112-117 | `VerifyTokenResponse.__init__`: its declared parameters in assignment order, each scalar, nested or a list with its target class |
| ClashLocations.ClanRanking | async_supercell_api/clash_of_clans/types/locations.py:6-20 | `ClanRanking.__init__`: its declared parameters in assignment order, each scalar, nested or a list with its target class |
| ClashLocations.Location | async_supercell_api/clash_of_clans/types/locations.py:23-31 | `Location.__init__`: its declared parameters in assignment order, each scalar, nested or a list with its target class |
| ClashLocations.ClanVersusRanking | async_supercell_api/clash_of_clans/types/locations.py:34-38 | `ClanVersusRanking.__init__`: its declared parameters in assignment order, each scalar, nested or a list with its target class |
| ClashLocations.PlayerVersusRanking | async_supercell_api/clash_of_clans/types/locations.py:41-53 | `PlayerVersusRanking.__init__`: its declared parameters in assignment order, each scalar, nested or a list with its target class |
| ClashLeagues.League | async_supercell_api/clash_of_clans/types/leagues.py:5-11 | `League.__init__`: its declared parameters in assignment order, each scalar, nested or a list with its target class |
| ClashLeagues.PlayerRanking | async_supercell_api/clash_of_clans/types/leagues.py:14-29 | `PlayerRanking.__init__`: its declared parameters in assignment order, each scalar, nested or a list with its target class |
| ClashLeagues.PlayerRankingClan | async_supercell_api/clash_of_clans/types/leagues.py:32-38 | `PlayerRankingClan.__init__`: its declared parameters in assignment order, each scalar, nested or a list with its target class |
| ClashLeagues.LeagueSeason | async_supercell_api/clash_of_clans/types/leagues.py:41-44 | `LeagueSeason.__init__`: its declared parameters in assignment order, each scalar, nested or a list with its target class |
| ClashLeagues.WarLeague | async_supercell_api/clash_of_clans/types/leagues.py:47-51 | `WarLeague.__init__`: its declared parameters in assignment order, each scalar, nested or a list with its target class |
| ClashLabels.Label | async_supercell_api/clash_of_clans/types/labels.py:5-11 | `Label.__init__`: its declared parameters in assignment order, each scalar, nested or a list with its target class |

## Left out

- `make_request`, the HTTP transport and its `print` of the status under debug: network I/O. The model stops at the `Request` value `make_api_request` would send.
- The endpoint methods of the two game clients (`clash_royale/api.py`, `clash_of_clans/api.py`): each only picks a path, its query keywords and the classes to decode as. They are not part of this model.
- `GoldPassSeason` (`clash_of_clans/types/goldpass.py`) is not part of this model.
- `quote` and `urlencode` are parameters of `Api.ApiRequest`: the model does not define percent-encoding.
- Python's `str()` of values that are neither responses nor lists (numbers, strings, dicts, classes) is the parameter `show` of the rendering functions. Floats are kept as mantissa and exponent and are never computed on.
- Every TypeError (an unbindable call, `**` on a value that is not a dict, iterating a number) is the single `Failure` or `RaisedTypeError`; the message is not modelled.
- `setattr` with a name Python treats specially (`args` on an exception, `__class__`, properties) is modelled as a plain attribute update.
- JSON objects with a repeated key are treated as unbindable. A JSON decoder would keep one value, and the API never sends one.
- DecoderLaws: the laws about a decoded instance require `OrdinaryNames` of the class: distinct declared names, none starting with `_` and none `self` or `success`. This is proved for every class of the two games and for `Page` (the `...Names` lemmas), and it is why the added `_page_generic_type` keyword never reaches a declared parameter.
- Responses.Truth: returns None where Python's `__bool__` raises TypeError for a non-bool flag; the exception itself is not modelled.
- Api.NewApi: `debug` is any bool; the source does not check the types of its arguments.
- Api.CreateObject: the `response` tuple is given as two parameters.
- Responses.SuccessNotPrinted: requires distinct keyword names, as every Python call has.
