# Factory Engine Pro: verified models

Dafny models of the parts of Factory Engine Pro whose behaviour is hardest to see from the code, with proofs of
what they guarantee on every input and in every run. `dafny verify dfyconfig.toml` checks everything.

| files | models |
|---|---|
| `SessionProtocol`, `ApiClient` | the API client's requests, token refresh and logout, as a machine of atomic steps and as an object whose methods are those steps |
| `SessionInvariants`, `SessionLogout`, `SessionFlights`, `SessionCalls`, `SessionLogins` | what that protocol keeps in every interleaving |
| `SessionAnswers` | who asks for a refresh and which one it gets, how refreshes settle, how calls end |
| `Text`, `Regex`, `Words`, `Delimited`, `StaffText` | the staff-text rewriter, from backtracking regular expressions (ECMA-262 section 22.2.2) up to words |
| `StaffTokens`, `StaffConvergence` | what its output never contains, and what applying it again does |
| `StaffSpelling`, `StaffDictionary`, `StaffPhrases` | where a phrase stands in a text, and what each phrase and each word becomes |
| `StaffChains`, `StaffImages`, `StaffTables`, `StaffIdempotence`, `StaffBound` | when the tokens leave a phrase behind, and how many applications are enough |
| `StaffPatterns`, `StaffInput`, `StaffLayout` | when one application is enough, read off the text itself |
| `IntentText`, `IntentDetector`, `IntentRegistry` | the text normaliser, the keyword search, and the shipped intent registry |
| `IntentReadings` | what the normaliser and the whole-word search mean, with the characters written out |
| `Schemas`, `StoredRow`, `StoredRowExample` | the schema combinators with laws for all schemas, and the reader that migrates stored resolver rows |
| `SchemaReadings`, `StoredRowReadings` | what parsing means and refuses, and which rows are read and which migrated, on their values |
| `Customization` | the cross-field validators of frontend customizations and algorithm strategies |
| `Wrappers` | the option datatype and a fact on concatenation |

## The session protocol

JavaScript runs one piece of code between two `await`s without interruption, so each such piece is one step of
`SessionProtocol`: a request sent, its response, its body, a waiter resumed, a refresh's response, its parsed body, its
`.finally` callback, the two halves of a logout, and the application writing the token store. A run is any sequence of
enabled steps; the network answers with any status, rejects whenever it likes, and in any order. The fields `statuses`,
`asked`, `joined` and `verdict` of a call and the list `wire` only record the past; no step reads them.

Callers that ask while a refresh is stored share it (`SharesTheRefresh`, and `OneRefreshForAll` for any number of them);
`AsksIff`, `RefreshSettlesIff`, `WaiterGoesOn` and `RequestEndsIff` say exactly when each thing happens.

What the code does not keep is stated as it is, with the exact condition:

- Single-flight is lost when a logout finds a refresh stored (`TwoRefreshesOfOneEpoch` is such a run); a run keeps it
  throughout exactly when no logout does (`SingleFlightIff`).
- A session the application stores can be wiped by older work, because the clears at lines 382, 2018 and 2023 are
  unconditional (`LateLogoutWipesLogin` is such a run); it is safe exactly when all refreshes have settled and no logout
  is pending (`StoredSessionSurvivesIff`).
- Screens that clear the store without calling `logout` (apps/accounts/src/components/Sidebar.tsx:80) get no guarantee
  from the epoch (`ClearedStoreIsRefilled` is such a run); the store stays empty exactly when no unsettled refresh carries
  the current epoch (`EmptyStoreStaysEmptyIff`).
- The two sends of one request can belong to two logins. With a login between them they can from every state
  (`RetryUnderAnotherLogin`); without one, they belong to one login in every continuation exactly when, at the first send,
  no refresh begun under another login can still write the store (`RetryKeepsLoginIff`). Logouts and clears in between do
  no harm.

## The staff-text rewriter

The source has 23 phrase passes and 17 token passes. `Delimited.ReplaceIsPass` proves the character scan of any of them,
prefix consumed and re-emitted, suffix only looked at, equal to a pass over words; everything else is proved on words and
carried back to strings. `HasPhraseIff` says where a phrase stands in a text, `PhraseBecomes` what a text that is one of the
phrases becomes, and `WithoutPhrases` that a text without one is translated word by word.

The rewriter is not idempotent ("stale automation" becomes "stale follow-up", then "follow-up").
`OneIsEnoughIff` gives the exact condition on the text itself: a second application changes the output exactly when one of
these stands in the text, with nothing but separators between the words:

- "ai analysis", "stale automation" or "service commission";
- "stale stale follow up", of which the pass of line 9 takes only the second "stale";
- "stale workflow" or "stale ai workflow", unless "rule" or "rules" follows; a "rule" before "trace" does not count, because
  the pass of line 14 takes it before the passes of lines 15 and 17 look for it.

The other phrases a token could complete cannot survive: their own passes have cleared them and no later replacement brings
them back (`IdempotentIff`). `Settles` says that a text with n words among analysis, stale, admin, service and task needs at
most n further applications, and `BoundIsReached` that some text needs all n. The 12th phrase pass never changes anything.

## The intent detector

The registry is data in the source's order. Keywords overlap, so the order is a priority; `KeywordIsDeadIff` says exactly
which keywords can never decide anything, and two of the shipped ones are instances. `StandsAloneIff` says when a keyword is
found, with the word characters written out, and `FoundInText` carries it to raw text.

## Stored rows

The schema library is zod 4.4.3 (pnpm-lock.yaml:2829): a default is returned without being parsed, `int()` means a
safe integer, and arrays are not objects. The omit and filling laws hold for every schema; the migration theorem is their
instance at the resolver schema. `ParseIff` says what parsing makes of any value and `RefusedIff` which values it refuses;
`ReadIff` and `MigratedIff` say it of the rows. Migration does not only add missing fields: one malformed version-5 field replaces all five,
well-formed ones included (`OneBadFieldReplacesAll`).

## Model

| member | source | states |
|---|---|---|
| SessionInvariants.StepKeepsInv | packages/api-client/src/index.ts:2000-2028 | every step keeps the invariant: a set `refreshPromise` is a live refresh of the current epoch, no refresh is ahead of the epoch, and every call's record is consistent with the refresh it joined |
| SessionInvariants.ReachableInv | packages/api-client/src/index.ts:311-388 | the invariant holds in every state of every run |
| SessionInvariants.StepGrows | packages/api-client/src/index.ts:2004-2028 | the epoch never falls, refreshes are never forgotten, keep their token and epoch, and never leave their outcome |
| SessionLogout.LoggedOutStaysLoggedOut | packages/api-client/src/index.ts:353-384 | in every interleaving, from a logout's synchronous part until the application stores a session, the store is empty, no refresh starts, and the only new call that carries a token is the logout itself |
| SessionLogout.EmptyStoreStaysEmptyIff | packages/api-client/src/index.ts:2011-2028 | an empty store stays empty until the next login in all continuations if and only if no unsettled refresh carries the current epoch |
| SessionLogout.RefreshInstallsIffNoLogout | packages/api-client/src/index.ts:2002-2027 | a refresh stores its parsed session exactly when no logout ran since its refresh token was read; otherwise it leaves the store empty and yields false |
| SessionLogout.JoinsOnlyRefreshesAfterLogout | packages/api-client/src/index.ts:357-358 | no call joins a refresh begun before the last logout |
| SessionLogout.StoredSessionSurvivesIff | packages/api-client/src/index.ts:2017-2025 | a stored session survives all pending work if and only if every refresh has settled and no logout awaits its response |
| SessionLogout.PendingOverwrite | packages/api-client/src/index.ts:381-383 | otherwise some pending step replaces or clears it |
| SessionLogout.StoredSessionHasSource | packages/api-client/src/index.ts:2021-2027 | a session found in the store was there before the run, or was handed over in it by the application or by a refresh of the current epoch |
| SessionLogout.StoreKeptWithoutWriters | packages/api-client/src/index.ts:1888-2028 | requests, rejected refreshes and callbacks touch neither the store nor the epoch, over any run |
| SessionFlights.LiveAccount | packages/api-client/src/index.ts:2005-2008 | over any run, live refreshes minus the stored one change by exactly the logouts that orphaned a refresh minus the callbacks of refreshes already let go |
| SessionFlights.LiveRefreshBound | packages/api-client/src/index.ts:357-358 | live refreshes minus the stored one never exceed the logouts, so there are at most 1 + logouts |
| SessionFlights.SingleFlightIff | packages/api-client/src/index.ts:2000-2009 | `refreshPromise` is set exactly when one refresh is live throughout a run if and only if no logout of the run found it set |
| SessionFlights.TwoRefreshesOfOneEpoch | packages/api-client/src/index.ts:2005-2007 | a concrete run that ends with two live refreshes of the current epoch |
| SessionFlights.ClearedStoreIsRefilled | packages/api-client/src/index.ts:2021-2027 | a concrete run that clears the store without a logout during a refresh, and a continuation without a login that fills it again |
| SessionFlights.LateLogoutWipesLogin | packages/api-client/src/index.ts:381-383 | a concrete run in which a new login is followed by the end of an older logout, which wipes the new session |
| SessionFlights.RunsAreShort | packages/api-client/src/index.ts:1888-2028 | a run takes at most nine steps for each thing the application starts: nothing retries for ever |
| SessionFlights.UnfinishedCallHasStep | packages/api-client/src/index.ts:1901-1907 | an unfinished call never gets stuck, even when its refresh is no longer the stored one |
| SessionFlights.EveryCallCanFinish | packages/api-client/src/index.ts:1888-1974 | from every state the pending work alone can run until every call is finished |
| SessionCalls.HeadersAreCurrent | packages/api-client/src/index.ts:1976-1986 | at each step, a request or its retry carries the access token in the store at that instant and none when unauthenticated or empty; a refresh carries none; a logout carries the token it has just cleared |
| SessionCalls.EveryHeaderWasCurrent | packages/api-client/src/index.ts:1895-1907 | every call sent in a run was sent by one step, with the header that step's instant allows: no header is ever built from an older or newer store |
| SessionCalls.SentAtMostTwice | packages/api-client/src/index.ts:1895-1960 | each of the three request variants is sent once or twice, twice exactly after an authenticated 401 and a refresh that came out true |
| SessionCalls.JoinersAgree | packages/api-client/src/index.ts:2005-2008 | all calls that joined one refresh get the same outcome, the one it settled with |
| SessionCalls.RefreshesAreDemanded | packages/api-client/src/index.ts:386-388 | refreshes started are at most the authenticated calls first answered 401 plus the explicit refresh calls |
| SessionCalls.ResolvedMeansOk | packages/api-client/src/index.ts:1909-1920 | a request resolves only on an ok last answer and never after a refused or thrown refresh; an explicit refresh call rejects only if its refresh threw |
| SessionAnswers.AsksIff | packages/api-client/src/index.ts:1901-1958 | a call asks for a refresh exactly when it is an explicit one, or when an authenticated request has its first 401: a blob request with the response, the others with the complete body |
| SessionAnswers.SharesTheRefresh | packages/api-client/src/index.ts:2000-2009 | who asks is refused exactly when the store has no refresh token; else it waits for the stored refresh, and nothing is started or sent, or for one new refresh when none is stored |
| SessionAnswers.OneRefreshForAll | packages/api-client/src/index.ts:2005-2008 | however many callers ask one after the other, all wait for one refresh, and at most one is started |
| SessionAnswers.RefreshSettlesIff | packages/api-client/src/index.ts:2011-2027 | a refresh comes out true exactly when its body arrives under its own epoch, false exactly when it is refused or outdated, and throws exactly when it is rejected; with what each does to the store |
| SessionAnswers.RefreshedMeansStored | packages/api-client/src/index.ts:2021-2027 | whoever hears true: the parsed session was stored, under the epoch the refresh was begun in |
| SessionAnswers.AnyAnswerCanCome | packages/api-client/src/index.ts:1888-2028 | whatever is open may be answered in any way and at any time, and the application may start anything at any time |
| SessionAnswers.WaiterGoesOn | packages/api-client/src/index.ts:1901-1965 | on true a request is sent again; on false it fails, a blob request only after the body of its 401; on a throw it fails; an explicit call rejects on a throw alone |
| SessionAnswers.RequestEndsIff | packages/api-client/src/index.ts:1888-1974 | in each variant a request resolves exactly when an answer with an ok status is complete, and rejects exactly in the listed cases |
| SessionAnswers.AnswerIsRead | packages/api-client/src/index.ts:1956-1960 | any other answer is recorded and its body awaited; a blob request then asks for no refresh any more |
| SessionLogins.StoreKeepsLoginIff | packages/api-client/src/index.ts:2000-2027 | until the next login the store is filled only under the present one, whatever logouts and clears happen, if and only if no unsettled refresh of the current epoch was begun under another |
| SessionLogins.RetryTokens | packages/api-client/src/index.ts:1895-1907 | a request takes the token of its first send from the store at its start, and that of its retry from the store when it resumes |
| SessionLogins.RetryKeepsLoginIff | packages/api-client/src/index.ts:1895-1907 | the two sends of a request belong to one login in every continuation without a login between them if and only if, at the first, no refresh begun under another login can still write the store; otherwise some such continuation sends the request again with a token of the other login |
| SessionLogins.RetryUnderAnotherLogin | packages/api-client/src/index.ts:1901-1907 | from every state and for any sessions some run with a login in between sends a request again under that other login, so the no-login half of the condition cannot be dropped |
| ApiClient.Client.BuildHeaders | packages/api-client/src/index.ts:1976-1986 | the bearer is the stored access token when authentication is asked for and the token is not empty |
| ApiClient.Client.SendRequest | packages/api-client/src/index.ts:1895-1899 | one fetch of a request, as in the machine |
| ApiClient.Client.StartRequest | packages/api-client/src/index.ts:1888-1899 | takes the machine's step for starting a request |
| ApiClient.Client.ResponseArrived | packages/api-client/src/index.ts:1956-1961 | takes the machine's step for a response or a rejected fetch, in all three variants |
| ApiClient.Client.BodyArrived | packages/api-client/src/index.ts:1901-1919 | takes the machine's step for a complete or broken body |
| ApiClient.Client.WaiterResumed | packages/api-client/src/index.ts:1935-1941 | takes the machine's step for a caller resuming after its refresh: retry, fail or throw |
| ApiClient.Client.RefreshStoredSession | packages/api-client/src/index.ts:2000-2009 | refuses without a token, joins the stored refresh, or starts one with the current epoch |
| ApiClient.Client.FetchRefreshSession | packages/api-client/src/index.ts:2011-2016 | adds one refresh with that token and epoch and sends it without a bearer |
| ApiClient.Client.StartRefreshSession | packages/api-client/src/index.ts:386-388 | takes the machine's step for an explicit refresh |
| ApiClient.Client.RefreshRejected | packages/api-client/src/index.ts:2012-2021 | a rejected fetch or body settles the refresh as a throw and leaves the store alone |
| ApiClient.Client.RefreshResponse | packages/api-client/src/index.ts:2017-2020 | a refused refresh clears the store, whatever the epoch |
| ApiClient.Client.RefreshParsed | packages/api-client/src/index.ts:2021-2027 | the epoch decides between storing the session and clearing the store |
| ApiClient.Client.RefreshFinally | packages/api-client/src/index.ts:2005-2007 | unsets whatever promise is stored |
| ApiClient.Client.StartLogout | packages/api-client/src/index.ts:353-368 | the synchronous part of a logout takes the machine's step |
| ApiClient.Client.LogoutFinally | packages/api-client/src/index.ts:381-383 | clears the store when the logout ends |
| ApiClient.Client.PerformAll | packages/api-client/src/index.ts:311-388 | the object carries out every run of the machine and ends in its state |
| Regex.EndsInRange | packages/contracts/src/staff-text.ts:58-59 | every match a backtracking matcher finds lies in the text, after its group |
| Delimited.PhraseEnds | packages/contracts/src/staff-text.ts:7-29 | backtracking over the separators and the optional plural finds one match at most: the phrase read off the text |
| Delimited.ReplaceIsPass | packages/contracts/src/staff-text.ts:55-66 | the global character scan equals the pass over words: every delimited occurrence is replaced, also when two share a delimiter, and everything else keeps order and text |
| StaffText.FoldIsPieces | packages/contracts/src/staff-text.ts:30-50 | folding any rule list over a string is folding the word-level passes over its pieces |
| StaffText.RewriteIsPieces | packages/contracts/src/staff-text.ts:4-53 | for any rule tables the whole rewriter, character by character, is the word-level rewriter |
| StaffText.TidyIs | packages/contracts/src/staff-text.ts:51-52 | collapsing white space and trimming act on pieces only between words |
| StaffTokens.OutputIsStaffSafe | packages/contracts/src/staff-text.ts:32-52 | for every input, none of the 17 tokens stands in the output as a whole word in any letter case |
| StaffTokens.RewriteHasNoForbidden | packages/contracts/src/staff-text.ts:32-52 | the same at word level, for any phrase table and any closed token table that covers the 17 tokens |
| StaffTokens.FoldIsMap | packages/contracts/src/staff-text.ts:50 | the passes of any closed token list equal one simultaneous dictionary pass |
| StaffDictionary.TokenOrderIsIrrelevant | packages/contracts/src/staff-text.ts:32-50 | the 17 token passes translate a text word by word with the dictionary of 17 words, and so does every reordering of them |
| StaffDictionary.WithoutPhrases | packages/contracts/src/staff-text.ts:4-53 | a text in which no phrase stands becomes its translation, white space tidied: each of the 17 words its image, every other word and character itself |
| StaffDictionary.WordTranslated | packages/contracts/src/staff-text.ts:50 | a word of the text is translated by itself, whatever stands around it |
| StaffDictionary.MeaningIs | packages/contracts/src/staff-text.ts:33-49 | a word becomes its image in any letter case |
| StaffDictionary.OtherWordsStay | packages/contracts/src/staff-text.ts:33-49 | any other word stays |
| StaffDictionary.NothingIsEmpty | packages/contracts/src/staff-text.ts:5 | `null` and `undefined` become the empty text |
| StaffPhrases.PhraseBecomes | packages/contracts/src/staff-text.ts:6-30 | a text that is one of the 23 phrases, in any letter case, with any separators and with the optional plural, becomes the final text of the table |
| StaffSpelling.HasPhraseIff | packages/contracts/src/staff-text.ts:55-60 | a phrase occurs exactly where its words stand in a row, only white space, `.`, `_` or `-` between them, and no letter or digit before or behind |
| StaffSpelling.SplitIs | packages/contracts/src/staff-text.ts:1-2 | the pieces of a text are its maximal runs of A-Z, a-z and 0-9 and all other characters one by one |
| StaffConvergence.RewriteTwice | packages/contracts/src/staff-text.ts:4-53 | for any tables of this kind a second application changes nothing exactly when no phrase rule occurs in the first output, and otherwise lowers the number of residue words |
| StaffConvergence.Converges | packages/contracts/src/staff-text.ts:6-52 | a further application changes nothing or lowers the number of words among analysis, stale, admin, service and task |
| StaffChains.HasPhraseChain | packages/contracts/src/staff-text.ts:7-29 | a phrase occurs in a text exactly where its word forms stand in a row, only separators between them |
| StaffChains.FoldLeavesNoPair | packages/contracts/src/staff-text.ts:30 | after a fold over rules that make no new pair of words, a pair one of them looks for is gone, wherever in the list that rule stands |
| StaffImages.MappedPair | packages/contracts/src/staff-text.ts:50 | for any token table without an empty image and without an image that holds the pair itself: two words stand in a row after the token passes exactly where words that turn into them stood in a row before |
| StaffImages.MappedTriple | packages/contracts/src/staff-text.ts:50 | the same for "stale follow up", which a token replaced by "follow-up" can complete |
| StaffIdempotence.IdempotentIff | packages/contracts/src/staff-text.ts:4-53 | a second application changes nothing if and only if none of five phrases stands in the text between the phrase passes and the token passes |
| StaffLayout.OneIsEnoughIff | packages/contracts/src/staff-text.ts:4-53 | a second application changes nothing if and only if none of six rows of words stands in the text the first was applied to |
| StaffInput.LeftoversFrom | packages/contracts/src/staff-text.ts:6-30 | for any table laid out like the source's, the phrase passes leave one of the five phrases to the tokens exactly when one of the six rows stands in the text before them |
| StaffPatterns.ShowsKept | packages/contracts/src/staff-text.ts:55-60 | a pass that shares no place with a row of words neither makes one nor takes one away, also where certain words must not follow the row |
| StaffPatterns.ShowsEaten | packages/contracts/src/staff-text.ts:15-18 | after a pass that takes the row together with a word behind it, the row is left exactly where no such word followed |
| StaffPatterns.ShowsFreed | packages/contracts/src/staff-text.ts:14 | a pass that takes the words behind a row frees it, and exactly those rows |
| StaffIdempotence.ResidueNeverGrows | packages/contracts/src/staff-text.ts:6-52 | no application adds a word among analysis, stale, admin, service and task |
| StaffIdempotence.Settles | packages/contracts/src/staff-text.ts:6-52 | after as many further applications as the input has such words the text no longer changes; an input without them needs none |
| StaffBound.BoundIsReached | packages/contracts/src/staff-text.ts:9-41 | for every n there is a text with n such words; each of the first n further applications takes one of them away, so any smaller number is not enough |
| StaffBound.OneApplicationIsNotEnough | packages/contracts/src/staff-text.ts:9-41 | "stale automation" becomes "stale follow-up", which a second application changes |
| StaffConvergence.SingularAfterPluralIsIdle | packages/contracts/src/staff-text.ts:55-60 | for any two-word rule with a foreign replacement, the singular pass after the plural pass is the identity |
| StaffConvergence.SingularWorkflowRuleIsIdle | packages/contracts/src/staff-text.ts:17-18 | after the pass of line 17 the pass of line 18 is the identity, on every text |
| IntentText.TidyIsUnwords | packages/contracts/src/enums.ts:822-823 | collapsing white space and trimming is joining the fields of the text with single spaces |
| IntentText.NormalizeIsCanonical | packages/contracts/src/enums.ts:815-824 | the result has no upper case, mark, `_` or `-`, and no double or outer space |
| IntentText.FixedIffCanonical | packages/contracts/src/enums.ts:815-824 | the normaliser leaves alone exactly the canonical texts, and is idempotent |
| IntentText.NormalizeDistributes | packages/contracts/src/enums.ts:815-824 | normalising two texts joined by a space is joining their normal forms, dropping empty ones |
| IntentReadings.CharactersAreReadings | packages/contracts/src/enums.ts:815-821 | the passes over characters are one table: accented Latin-1 and Turkish letters in both cases become their base letters, marks vanish, `_` and `-` become spaces |
| IntentDetector.Find | packages/contracts/src/enums.ts:808-811 | the first registry entry, other than `no_action`, with a keyword in the text |
| IntentDetector.DetectNormalized | packages/contracts/src/enums.ts:806-813 | detection sees only the normalised text |
| IntentReadings.DetectIsFirst | packages/contracts/src/enums.ts:806-813 | the intent detected is that of the first entry with a keyword that stands in the text, and `no_action`, the last, when no other entry has one |
| IntentReadings.DetectIff | packages/contracts/src/enums.ts:806-813 | an intent is detected if and only if a keyword of its entry stands in the text and none of an earlier entry does |
| IntentReadings.HasKeywordIff | packages/contracts/src/enums.ts:826-831 | a keyword is found exactly where it stands in the text with one word character at each of its two `\b` |
| IntentReadings.StandsAloneIff | packages/contracts/src/enums.ts:826-831 | a keyword that begins and ends with a letter, digit or `_` is found exactly where the characters around it are none of these |
| IntentReadings.FoundInText | packages/contracts/src/enums.ts:806-831 | raw text with a keyword in it, no word going on before or behind, is detected as that intent or one that ranks earlier |
| IntentDetector.ContainsTransitive | packages/contracts/src/enums.ts:826-831 | a whole-word part of a whole-word part is a whole-word part, with `\b` at both ends |
| IntentDetector.SubPhrase | packages/contracts/src/enums.ts:826-831 | every text with a keyword has every keyword that is a whole-word sub-phrase of it |
| IntentDetector.AddingTextNeverLowersPriority | packages/contracts/src/enums.ts:806-813 | the intent of `a + " " + b` ranks at or before those of `a` and of `b`, for any ranked registry |
| IntentDetector.FindBeside | packages/contracts/src/enums.ts:808-811 | for any registry the first match in two texts side by side is no later than in either |
| IntentDetector.ShadowedKeywordIsDead | packages/contracts/src/enums.ts:808-811 | deleting a keyword that contains a keyword of an earlier entry, or another of its own, changes no detection |
| IntentDetector.KeywordIsDeadIff | packages/contracts/src/enums.ts:806-831 | in a ranked registry a keyword that starts and ends with a word character, of an entry other than `no_action`, can be deleted without changing any detection if and only if a keyword of an earlier entry, or another of its own, stands in it as whole words |
| IntentDetector.ShadowedKeywordIsNeverFirst | packages/contracts/src/enums.ts:808-811 | deleting a shadowed keyword changes no first match, in any text |
| IntentRegistry.RegistryIsRanked | packages/contracts/src/enums.ts:212-531 | the shipped registry has distinct intents and ends with `no_action` |
| IntentRegistry.MoreTextRanksNoLower | packages/contracts/src/enums.ts:212-531 | adding text never lowers priority in the shipped registry |
| IntentRegistry.SampleIsFound | packages/contracts/src/enums.ts:212-531 | for each of the 16 intents a keyword that, standing anywhere in a text, is detected as it or as one that ranks earlier |
| IntentRegistry.DualStationUpgradeIsDead | packages/contracts/src/enums.ts:467 | the keyword "dual station upgrade" decides nothing |
| IntentRegistry.SupplyPrintheadIsDead | packages/contracts/src/enums.ts:305 | the keyword "printhead" of the supply entry decides nothing |
| Schemas.ParseIsIdempotent | packages/contracts/src/ai.ts:51-176 | for every well-formed schema a parsed value parses to itself and is not undefined |
| Schemas.FixedIffConforms | packages/contracts/src/ai.ts:51-176 | for every well-formed schema the values parsing leaves alone are exactly those of the described form |
| Schemas.ParsedConforms | packages/contracts/src/ai.ts:51-176 | every parsed value has the described form: trimmed, in bounds, no unknown and no missing field |
| SchemaReadings.ParseIff | packages/contracts/src/ai.ts:51-176 | for every well-formed schema, parsing gives exactly the value the schema reads: texts without the white space around them and of the right length, lists item by item, records field by field |
| SchemaReadings.RefusedIff | packages/contracts/src/ai.ts:51-176 | for every schema, the values refused: of another type, not an option, out of range, too long, with a refused item or field, and `null` at a default whose inner schema refuses it |
| SchemaReadings.TextIsTrimmed | packages/contracts/src/ai.ts:56-57 | a trimmed text loses exactly the white space around it, and then its length decides |
| Schemas.OmitLaw | packages/contracts/src/ai.ts:178-184 | for every shape, the full shape accepts a record exactly when the omitted shape and the left-out fields do, and its result is theirs together |
| Schemas.FillingLaw | packages/contracts/src/ai.ts:195-246 | for every shape, a parse of the omitted shape with self-parsing values filled in is a fixed parse of the full shape |
| StoredRow.OutputOk | packages/contracts/src/ai.ts:139-184 | the resolver schema is well formed and omitting leaves out exactly the five fields of version 5 |
| StoredRow.ReadLaws | packages/contracts/src/ai.ts:195-248 | for any current schema with these five fields: a row is read exactly when the schema without them accepts it, what is read restricted to the other fields is that parse, and it is a fixed parse of the current schema |
| StoredRow.MigratedLaws | packages/contracts/src/ai.ts:204-217 | for any such schema, a migrated row reports the version it carries, at least 1, and its conversation has the direction of its own brief |
| StoredRow.ReadIffLegacyAccepts | packages/contracts/src/ai.ts:195-202 | a stored row is read exactly when the legacy schema accepts it |
| StoredRow.ReadKeepsLegacyFields | packages/contracts/src/ai.ts:204-209 | what is read, restricted to the legacy fields, is the legacy parse |
| StoredRow.RereadIsCurrent | packages/contracts/src/ai.ts:195-248 | what is read has the form of the current schema, and reading it again gives the same data and no migration |
| StoredRow.MigratedRows | packages/contracts/src/ai.ts:195-217 | a row that is read was migrated exactly when its five version-5 fields, taken together, are refused, which is when the current schema rejects it; it reports the version the row carries, at least 1, and takes its call direction from its own brief |
| StoredRow.MigratedRowClaimsNothing | packages/contracts/src/ai.ts:204-246 | a migrated row claims no customer, mood, issue, promise or action, with no confidence and no evidence; its call direction is that of its brief |
| StoredRowReadings.ReadIff | packages/contracts/src/ai.ts:139-202 | a value is read exactly when it is a record whose other fields are of these types, options, ranges and lengths |
| StoredRowReadings.MigratedIff | packages/contracts/src/ai.ts:52-101 | a row that is read is migrated exactly when one of its five version-5 parts is missing or not of these types, options, ranges and lengths |
| StoredRow.OneBadFieldReplacesAll | packages/contracts/src/ai.ts:195-246 | for any current schema: one malformed version-5 field in a row that is otherwise current makes the reader replace all five by unknowns |
| StoredRowExample.RowWithPromise | packages/contracts/src/ai.ts:139-176 | a concrete row of the current version with a promise the agent made |
| StoredRowExample.MalformedMoodDropsPromise | packages/contracts/src/ai.ts:204-246 | with `null` for the mood any current row is read as migrated and its promise is gone |
| Customization.RefineElement | packages/contracts/src/rules.ts:475-493 | the validator appends exactly the conflict log and the section-order issue |
| Customization.ElementAcceptedIff | packages/contracts/src/rules.ts:475-493 | an override is accepted exactly when no field is visible and hidden and sections are ordered only for `task.modal` |
| Customization.ConflictLogMembers | packages/contracts/src/rules.ts:477-485 | each hidden field that is also visible is logged as often as it is listed, and nothing else is |
| Customization.RefineGroups | packages/contracts/src/rules.ts:563-569 | the group loop appends the duplicate log and returns the declared ids |
| Customization.RefineItems | packages/contracts/src/rules.ts:570-579 | the item loop appends its log, duplicate before unknown group |
| Customization.RefineNavigation | packages/contracts/src/rules.ts:562-586 | the validator appends exactly the navigation log |
| Customization.ItemLogLength | packages/contracts/src/rules.ts:570-579 | the item loop logs (items - different nav ids) duplicates plus one issue for each item with an undeclared group |
| Customization.ItemIssues | packages/contracts/src/rules.ts:570-579 | it logs a duplicate exactly for the ids that repeat, and an unknown group exactly for the items that name an undeclared one |
| Customization.NavigationIssues | packages/contracts/src/rules.ts:562-586 | which issues the whole validator logs, on the fields of the override |
| Customization.NavigationAcceptedIff | packages/contracts/src/rules.ts:562-586 | nothing is logged exactly when all `groups[].id` differ, all `items[].navId` differ, every named group is declared, and no item for the default id is hidden |
| Customization.RefineDefinition | packages/contracts/src/rules.ts:602-618 | the validator appends exactly the duplicate log of its four lists in order, and adds nothing exactly when the ids of blocks, content blocks, element overrides and navigation overrides all differ |
| Customization.DefinitionAcceptedIff | packages/contracts/src/rules.ts:602-618 | nothing is logged if and only if no id stands twice, within a list or in two of them |
| Customization.DefinitionLogLaw | packages/contracts/src/rules.ts:602-618 | the log has exactly (total entries - different ids) issues |
| Customization.DefinitionIssues | packages/contracts/src/rules.ts:602-618 | an id is logged with the name of a list exactly when it stands twice in that list, or in it and in an earlier one |
| Customization.RefineStrategy | packages/contracts/src/rules.ts:785-793 | the validator appends exactly the duplicate log of the score bands, and adds nothing exactly when all `scoreBands[].id` differ |
| Customization.StrategyLogLaw | packages/contracts/src/rules.ts:785-793 | it logs (bands - different ids) issues, none exactly when all ids differ |
| Customization.StrategyIssues | packages/contracts/src/rules.ts:785-793 | it logs exactly the ids that repeat |
| Customization.DuplicateLogLength | packages/contracts/src/rules.ts:787-792 | a duplicate loop logs exactly (entries - distinct ids) issues |
| Customization.DuplicateLogEmpty | packages/contracts/src/rules.ts:787-792 | it logs nothing exactly when the ids are pairwise distinct |

## Left out

- The endpoint methods, URL building, real `fetch`, JSON text parsing and local storage: they are choices of the environment and an abstract store; several browser tabs sharing one local storage are not modelled.
- The stores of the applications dispatch a session-changed event inside `setSession` and `clear` (apps/person/src/lib/api.ts:19-26, apps/admin/src/lib/api.ts:11), so listeners run in the middle of a step; a listener that calls the client or the store again from there is not modelled.
- A client built without a token store behaves like one whose store stays empty; the model always has a store.
- The claims of a session other than its two tokens, and the payloads and error objects of requests: only whether a call resolves or rejects is modelled.
- StaffText.StaffSafeDisplayText: takes a string or nothing; `String(value)` on other types is not modelled. One Dafny character stands for one code unit.
- IntentText.Normalize: lower-casing and decomposition cover ASCII, Latin-1, the Turkish letters and the marks U+0300 to U+036F; all other characters are taken as unchanged, so the full Unicode tables and context-dependent lower-casing are not modelled.
- IntentText.NormalizeIsCanonical: holds for that character table, not for all of Unicode.
- IntentText.FixedIffCanonical: holds for that character table; a text with other capitals or composed letters may count as canonical here and still be changed by the original.
- IntentText.NormalizeDistributes: holds for that character table; a lower-casing that looks at neighbouring characters (the Greek final sigma) is not covered.
- IntentReadings.CharactersAreReadings: the table is that of the model; letters outside it are taken as unchanged.
- IntentDetector.DetectNormalized: rests on the normaliser being idempotent, so it holds for that character table.
- IntentDetector.AddingTextNeverLowersPriority: rests on `NormalizeDistributes`, so it holds for that character table.
- IntentRegistry.MoreTextRanksNoLower: the same, at the shipped registry.
- IntentDetector.KeywordIsDeadIff: a keyword whose normal form begins or ends with a character that is no word character is not covered; the shipped registry has none.
- Schemas.Parse: an accepted value or a refusal; the issues of a refusal, their paths and messages are not modelled. Numbers are finite reals, so NaN, infinities and rounding are not.
- StoredRow.ReadIffLegacyAccepts: that a refused row reports the current schema's error is not stated, for the same reason.
- Customization.RefineDefinition: the field schemas around the validators (lengths, patterns, coercions) are not modelled, only what the cross-field loops look at.
- The full list of dead keywords of the shipped registry: `KeywordIsDeadIff` decides it keyword by keyword, and two of them are stated.
- Intent labels, axes, task titles and examples of the registry: detection does not read them.
- React screens, routes, the workflow server, rule execution, scoring, pricing and billing: user interface, input and output, or types without visible behaviour.
- Permission tables, layout clamps, formatters and "exactly one of" checks: out of scope.
