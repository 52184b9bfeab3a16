# Client registry of the sales chat assistant

This project models the client registry of a small web application. The app keeps its
client records and their chat histories in browser-local storage. One "current client"
slot says whose session is active. Two pages change this state:

- the client list page (`src/app/page.tsx`) creates clients, searches them and selects one;
- the type choice page (`src/app/select-type/page.tsx`) sets the current client's type and
  patches it into the stored list.

Modules:

- `Types` (`types.dfy`): `Client`, `Message`, `ClientType`, `AuditType`, and an `Option`
  for optional fields and absent storage keys. A `Date` is a number of milliseconds.
  The TypeScript field `type` is called `clientType`.
- `Text` (`text.dfy`): ASCII `toLowerCase`, `includes` as a left-to-right scan, and
  `Number.prototype.toString` for the ids, each with the lemmas the pages need.
- `Navigation` (`navigation.dfy`): the next screen, returned as a `Route` value.
- `Storage` (`storage.dfy`): the class `LocalStorage`. It has one field per kind of key:
  `clients`, `currentClient`, and `chatHistory` keyed by client id. `HistoryKeysDistinct`
  proves the three kinds of key never collide, so three fields are enough.
- `Home` (`home.dfy`): the search as functions and lemmas. The class `HomePage` holds the
  page's `clients` state and does create, select and save.
- `SelectType` (`select_type.dfy`): `findIndex`, the patch, and the class `SelectTypePage`.

Clock readings (`Date.now()`, `new Date()`) are method parameters. The code reads the clock
three times when it creates a client, so `CreateClient` takes three readings. JSON encoding is
assumed lossless, so storage holds typed values.

Behaviour of the code that a reader might not expect, which the model keeps:

- Choosing `new_idea` does not clear `auditType`. The update spreads the old client, so a
  previously chosen audit type survives (`select-type/page.tsx:59`; `NewIdeaKeepsAuditType`).
- Creation rejects only the empty string. A name made of spaces is accepted (`page.tsx:49`).
- The list page sends an improvement client without an audit type to `/select-type`
  (`page.tsx:42`). The type choice page itself goes straight to `/chat/improvement`
  (`ChosenRouteAgreesWithList`).
- Nothing guarantees that ids are unique. `NewIdFresh` proves a fresh id only when every
  stored id came from an earlier clock reading.

## Model

| member | source | states |
|---|---|---|
| `Text.Lower` | src/app/page.tsx:71-72 | lower-casing keeps the length |
| `Text.LowerAt` | src/app/page.tsx:71-72 | each position of the result is the lower-cased character at that position |
| `Text.LowerIdempotent` | src/app/page.tsx:71-72 | lower-casing an already lower-cased query changes nothing |
| `Text.ContainsIff` | src/app/page.tsx:71-72 | the `includes` scan succeeds iff the needle occurs at some index (both directions) |
| `Text.Contains` | src/app/page.tsx:71-72 | `includes` never finds a needle longer than the string |
| `Text.ContainsEmpty` | src/app/page.tsx:69-73 | every string includes the empty string |
| `Text.NatToString` | src/app/page.tsx:51 | `Date.now().toString()` is a non-empty string of decimal digits |
| `Text.ParseNatToString` | src/app/page.tsx:51 | reading the decimal id back gives the timestamp |
| `Text.NatToStringInjective` | src/app/page.tsx:51 | distinct timestamps give distinct ids |
| `Storage.HistoryKeysDistinct` | src/app/page.tsx:33-35 | `chatHistory:<id>` keys are distinct per id and never equal `clients` or `currentClient` |
| `Storage.HistoryKey` | src/app/page.tsx:33-35 | the key `chatHistory:<id>` is the prefix followed by the id, and the id can be read back from it |
| `Navigation.RoutePath` | src/app/select-type/page.tsx:68 | the path passed to `router.push` (`/select-type`, `/chat/new_idea`, `/chat/improvement`, also at src/app/page.tsx:38-42 and 65) reads back as the route, so distinct routes never share a path |
| `Storage.LocalStorage.StoredClients` | src/app/select-type/page.tsx:62 | an absent `clients` key reads as the empty list, a present one as its list |
| `Home.Matches` | src/app/page.tsx:70-72 | the search callback holds iff the lower-cased query occurs at some index of the lower-cased name or of the lower-cased company (`""` if absent) |
| `Home.FilterClients` | src/app/page.tsx:69-73 | the search returns at most the stored clients, and only ones that match |
| `Home.FilterMembership` | src/app/page.tsx:69-73 | a client is listed iff it is stored and its lower-cased name or company (`""` if absent) includes the lower-cased query |
| `Home.FilterIsSubsequence` | src/app/page.tsx:69-73 | the search result is an order-preserving subsequence of the stored list |
| `Home.FilterAppend` | src/app/page.tsx:69-73 | searching a concatenation is concatenating the searches, so relative order is kept |
| `Home.FilterEmptyQuery` | src/app/page.tsx:69-73 | an empty query lists every client in stored order |
| `Home.FilterCaseInsensitive` | src/app/page.tsx:69-73 | the case of the query does not change the result |
| `Home.SelectRoute` | src/app/page.tsx:37-43 | selection leads to a chat iff the type is `new_idea` or an audit type is set; the chat is for the client's type, and always `new_idea` for a new-idea client |
| `Home.SelectRouteIgnoresAuditOfNewIdea` | src/app/page.tsx:37-38 | a stale audit type on a new-idea client does not change its route |
| `Home.NewClient` | src/app/page.tsx:50-57 | the new record has the given name, the company present (`""` when blank), type `new_idea`, no audit type, the supplied creation and update times, and an all-digit id that reads back as the `Date.now()` stamp; the list page routes it to `/chat/new_idea` |
| `Home.NewIdFresh` | src/app/page.tsx:51 | if every stored id came from an earlier timestamp, the new id is not already stored |
| `Home.CreatedClientListed` | src/app/page.tsx:58 | after a create, an empty search lists the new client first and then the old list; a matching search lists it first |
| `Home.AcmeSearch` | src/app/page.tsx:50-57 | "Acme" created without a company is found by "" and "CM" but not by "zzz" |
| `Home.HomePage.Mount` | src/app/page.tsx:16-21 | the page state starts as the stored list, or empty when the key is absent |
| `Home.HomePage.SaveClients` | src/app/page.tsx:24-27 | the state and the `clients` key both become the new list; nothing else changes |
| `Home.HomePage.Filtered` | src/app/page.tsx:69-73 | the listed clients are an order-preserving subsequence of the state, holding exactly the matching ones |
| `Home.HomePage.SelectClient` | src/app/page.tsx:30-44 | the client becomes current; an existing history is kept and a missing one becomes empty; the route is `SelectRoute(client)` |
| `Home.HomePage.CreateClient` | src/app/page.tsx:47-66 | an empty name changes nothing and navigates nowhere; otherwise the new client (given name and company, type `new_idea`, no audit type, the supplied times) is prepended to the list and stored, becomes current, gets an empty history, and the route is `/select-type` |
| `SelectType.FindIndex` | src/app/select-type/page.tsx:63 | `findIndex` gives the first index with the id, or -1 exactly when no client has it |
| `SelectType.PatchIsReplaceFirst` | src/app/select-type/page.tsx:63-66 | assigning at the found index is the same as replacing the first client with that id; with no match the list is unchanged |
| `SelectType.WithType` | src/app/select-type/page.tsx:59 | the updated client has the chosen type and the new time, and restoring those two fields gives back the old client, so every other field, `auditType` included, is kept |
| `SelectType.NewIdeaKeepsAuditType` | src/app/select-type/page.tsx:59 | choosing `new_idea` keeps a previously set audit type |
| `SelectType.ChosenRouteAgreesWithList` | src/app/select-type/page.tsx:68 | this page's route for a client agrees with the list page's route iff the type is `new_idea` or an audit type is set |
| `SelectType.SelectTypePage.Mount` | src/app/select-type/page.tsx:52-55 | the page state is the stored current client |
| `SelectType.SelectTypePage.SelectType` | src/app/select-type/page.tsx:57-69 | with no client nothing changes and there is no route; otherwise `currentClient` becomes the client with the new type and time and every other field kept; only the first stored entry with its id is replaced, and the list is not written if there is none; the route is `/chat/<type>` either way |

## Left out

- Rendering, form state (`showForm`, the input fields and their resets), the disabled
  submit button and the `AUDIT_OPTIONS` cards: these are user interface only.
- `router.push`: only the chosen route is modelled, as a `Route` value.
- JSON serialisation: storage holds typed values. After a real round trip, dates come back
  as strings. The model does not capture that.
- `toLowerCase`: only ASCII letters are lower-cased. Unicode case mapping is not modelled.
- Clock readings are taken to be non-negative (`Time` is a `nat`). `Date.now()` is negative
  for a clock set before 1970, which would give an id such as `"-123"`; the model cannot
  produce such an id.
- Ids and timestamps come from the clock. The clock is a parameter and nothing is assumed
  about how it moves.
- The chat page, audit-type selection, prompt templates, message appending, the Gemini
  proxy (`src/pages/api/gemini-chat.ts`) and its client (`src/lib/gemini.ts`) are not part
  of this model. They are network I/O or outside the registry.
- `SelectType.SelectTypePage.SelectType` works on the parsed array as an immutable
  sequence (`list[idx := updated]`), not as an array updated in place. Nothing else can
  see that array, so no behaviour is lost.
