# Theme editor and link discovery, modelled in Dafny

This project models the two pieces of logic in a small Next.js storefront
builder.

**The theme draft and its editor** (`app/dashboard/theme/page.tsx`):

- A `ThemeDraft` has four groups:
  - brand: app name, three colours, font;
  - navigation tabs;
  - home: banner and notice;
  - site: the webview address.
- `migrateDraft` turns any value read back from local storage into a valid draft, field by field.
- The editing session keeps `draft`, `webUrl`, `frameKey` and `frameBlocked`, and two storage slots, `theme_draft` and `theme_published`. Its actions are the tab, brand and home setters, save, publish, reset, and the load step at start-up.
- The preview uses three pure helpers: `contrastOn`, `fontStackOf` and `normalizeUrl`.

**The link discovery route** (`app/api/uploadthing/route.ts`):

- Given a shop's address, `GET` fetches the page and turns every `a`, `[role="link"]` and `button` element into a candidate `{href, abs, text}`.
- `findBy` picks the home, cart and orders links. It tries the keywords in order first, then the path hints, and returns '' when neither finds an address. `GET` then replaces each empty link with a default address.

Modules:

- `js_runtime.dfy` (`JsRuntime`): the JavaScript behaviour the code relies on:
  - JSON values and property access;
  - `trim` over the exact ECMAScript white-space set;
  - `toLowerCase`, the ASCII case folding of a regular expression with the `i` flag, and `includes`;
  - the `String(x)` coercion, which can throw, and `err instanceof Error ? err.message : …`;
  - completions that may throw.
- `web_url.dfy` (`WebUrl`): URLs as the WHATWG URL Standard parser returns them. The parser is a value holding two functions that may throw, one for `new URL(s)` and one for `new URL(s, base)`.
- `theme_draft.dfy` (`ThemeDraft`): covers the following.
  - The draft datatypes and `sanitizeHex`.
  - The migration, and the stored form a save writes.
  - Round-trip and idempotence lemmas.
  - The initial draft, `contrastOn` (with `parseInt(…, 16)` written out), `fontStackOf` and `normalizeUrl`.
- `theme_editor.dfy` (`ThemeEditor`): the editing session as a class `Editor`, with the storage as a map from slot name to stored value.
- `link_discovery.dfy` (`LinkDiscovery`): covers the following.
  - `textOf`.
  - `hrefOf`, whose `onclick` regular expression is written out as a leftmost-match scan.
  - Candidate construction and `findBy`. `findBy` is a loop method proved equal to a recursive definition, and the properties are stated about that definition.
  - The `GET` handler.

The model follows the statements of the code, also where its types, casts and comments suggest more:

- The `as IconName` cast in `migrateDraft` checks nothing. Any non-null stored `builtin` value is kept.
- The migration is described as upgrading older records. It has no per-version cases, though: it only defaults each group and field that is missing or has the wrong type. The draft has no banner on/off switch and no notice colours, and neither does the model.
- The route does not treat a non-success HTTP status as a failure. It parses whatever page comes back.
- `migrateDraft` is declared to return a `ThemeDraft` whose `fontFamily` is one of four names. As written, it neither always returns nor always returns such a name. See "Findings".

## Model

| member | source | states |
|---|---|---|
| JsRuntime.TrimSpec | app/api/uploadthing/route.ts:24 | `trim` keeps a contiguous slice. Everything cut off is white space, and the result neither starts nor ends with white space. |
| JsRuntime.TrimOfUnpadded | app/dashboard/theme/page.tsx:46 | A string with no white space at either end is its own trim. |
| JsRuntime.TrimIdempotent | app/dashboard/theme/page.tsx:46 | Trimming twice equals trimming once. |
| JsRuntime.AsString | app/dashboard/theme/page.tsx:46 | `isString(v)` holds exactly when the value is present and a string, and then the value is that string. |
| JsRuntime.ToLowerAscii | app/api/uploadthing/route.ts:27 | The case folding the `i` flag applies to the onclick pattern keeps the length and maps each character on its own, A–Z to a–z and every other character to itself. |
| JsRuntime.LowerCase | app/api/uploadthing/route.ts:20 | `toLowerCase` never shortens a string, and keeps its length when it holds no 'İ'. |
| JsRuntime.LowerCaseConcat | app/api/uploadthing/route.ts:17-20 | Lower-casing a concatenation lower-cases each part on its own, so the text, aria-label and title are lower-cased separately. |
| JsRuntime.LowerOfFixed | app/api/uploadthing/route.ts:63 | What one character lower-cases to is already lower case. |
| JsRuntime.LowerCaseIdempotent | app/api/uploadthing/route.ts:63 | Lower-casing twice equals lower-casing once. |
| JsRuntime.IncludesSpec | app/api/uploadthing/route.ts:58 | `s.includes(sub)` holds exactly when `sub` occurs at some index of `s`. |
| JsRuntime.TrimKeepsWord | app/api/uploadthing/route.ts:20 | A word with no white space at either end that occurs in a string also occurs in its trim. |
| JsRuntime.NatToString | app/dashboard/theme/page.tsx:68 | `String(n)` of a non-negative integer below 10^21 is a non-empty run of decimal digits, and the value of those digits is n. |
| JsRuntime.ToJsString | app/dashboard/theme/page.tsx:68 | `String(v)` gives a string itself and a plain object "[object Object]". It throws exactly when v is an object with an own `toString` key or an array holding such a value, and then with the TypeError 'Cannot convert object to primitive value'. |
| JsRuntime.JoinItems | app/dashboard/theme/page.tsx:68 | Joining an array's elements throws exactly when one of them throws on `String`, with the same TypeError. |
| JsRuntime.MessageOf | app/api/uploadthing/route.ts:79 | No contract of its own. `FetchFailureIs500` and `WithFallbacks` state the message: an Error's own message, or 'fetch-failed' for any other thrown value. |
| ThemeDraft.IsHexColor | app/dashboard/theme/page.tsx:46 | No contract of its own: it is the pattern `^#[\da-fA-F]{6}$` over seven characters. `SanitizeHexSpec` and `HexColorIsTrimmed` state what the sanitiser makes of it. |
| ThemeDraft.HexColorIsTrimmed | app/dashboard/theme/page.tsx:46 | A colour matching `^#[\da-fA-F]{6}$` is unchanged by `trim`. |
| ThemeDraft.SanitizeHex | app/dashboard/theme/page.tsx:46 | The result is the fallback or the trimmed input. Anything other than the fallback is a well-formed colour, so a well-formed fallback gives a well-formed result. |
| ThemeDraft.SanitizeHexSpec | app/dashboard/theme/page.tsx:46 | Both directions hold: the trimmed string is returned exactly when the input is a string whose trim is a well-formed colour, and the fallback otherwise. |
| ThemeDraft.SanitizeHexIdempotent | app/dashboard/theme/page.tsx:46 | A sanitised colour passes the sanitiser again unchanged. |
| ThemeDraft.SanitizeHexExamples | app/dashboard/theme/page.tsx:46 | "#ZZZZZZ" and a number give the fallback, and "#aabbcc" is kept. |
| ThemeDraft.MigrateFont | app/dashboard/theme/page.tsx:67-69 | A string that is one of System, Inter, Roboto or Poppins gives that font, and anything else gives System (both directions). This is the corrected rule; see Findings. |
| ThemeDraft.MigrateIconKind | app/dashboard/theme/page.tsx:82-83 | "builtin", "emoji" and "image" keep their kind, and any other value becomes builtin (both directions). |
| ThemeDraft.MigrateBuiltin | app/dashboard/theme/page.tsx:88 | `builtin ?? 'home'`: an absent or null value becomes 'home', and any other value is kept unchecked, so the result is never null. |
| ThemeDraft.MigrateTab | app/dashboard/theme/page.tsx:80-92 | A migrated tab has all its icon fields. A string label, url, emoji or iconImage is kept as stored, and anything else becomes 'Yeni', 'https://ornek.com', '✨' or '' respectively. The icon kind goes through the iconKind rule. `builtin` becomes 'home' exactly when it is absent or null, and is otherwise kept unchecked. |
| ThemeDraft.MigrateTabs | app/dashboard/theme/page.tsx:65 | Every tab of the migrated list is well formed. |
| ThemeDraft.DefaultColoursAreHex | app/dashboard/theme/page.tsx:74-76 | The three default colours '#EA580C', '#F59E0B' and '#111827' are well formed. |
| ThemeDraft.MigrateBrand | app/dashboard/theme/page.tsx:72-78 | The three migrated colours are always well formed. They are the stored values sanitised against '#EA580C', '#F59E0B' and '#111827'. A string appName is kept, and anything else becomes 'Mağazam'. The font goes through the font rule. |
| ThemeDraft.MigrateHome | app/dashboard/theme/page.tsx:94-98 | A string bannerImage, bannerLink or noticeText is kept as stored. Anything else becomes the first sample banner, 'https://ornek.com' or 'Bugün %15 indirim!' respectively. |
| ThemeDraft.Migrate | app/dashboard/theme/page.tsx:58-101 | Migration is a total function, and every result is well formed: its colours match the pattern and every tab has all its icon fields. Each group is migrated from its own stored group alone. A string site.url is kept, and anything else becomes ''. |
| ThemeDraft.MigrateNonObject | app/dashboard/theme/page.tsx:59-63 | null, strings, numbers, booleans, arrays and objects without any of the four groups all migrate to the defaults, with no tabs. |
| ThemeDraft.MigrateTabsShape | app/dashboard/theme/page.tsx:65-92 | A stored tab array keeps its length and order, and each element is migrated on its own. Anything that is not an array gives no tabs. |
| ThemeDraft.TabReload | app/dashboard/theme/page.tsx:80-92 | A saved tab reloads as itself, with the missing icon fields set to their defaults. |
| ThemeDraft.BrandReload | app/dashboard/theme/page.tsx:72-78 | A saved brand reloads as itself, with its colours sanitised. |
| ThemeDraft.TabsReload | app/dashboard/theme/page.tsx:79-93 | A saved tab list reloads element by element as the completed tabs. |
| ThemeDraft.SaveReload | app/dashboard/theme/page.tsx:58-101 | Migrating what a save stores gives the draft's normal form. The normal form sanitises the colours, completes the tabs and keeps every other field. |
| ThemeDraft.NormalizeWellFormed | app/dashboard/theme/page.tsx:58-101 | A well-formed draft is its own normal form. |
| ThemeDraft.RoundTrip | app/dashboard/theme/page.tsx:58-101 | Saving and then migrating a well-formed draft gives it back unchanged. |
| ThemeDraft.MigrateIdempotent | app/dashboard/theme/page.tsx:58-101 | Migrating a migrated draft, viewed as stored data, changes nothing. |
| ThemeDraft.ThreeTabsRoundTrip | app/dashboard/theme/page.tsx:80-92 | Three well-formed tabs come back with the same values in the same order. |
| ThemeDraft.InitialDraft | app/dashboard/theme/page.tsx:104-113 | The initial draft has well-formed colours and a non-empty site address. |
| ThemeDraft.ContrastOn | app/dashboard/theme/page.tsx:42-45 | The text colour is always '#111827' or '#ffffff'. |
| ThemeDraft.ByteAt | app/dashboard/theme/page.tsx:43 | Two hex digits of a colour make a byte, below 256. |
| ThemeDraft.ParseIntHex | app/dashboard/theme/page.tsx:43 | `parseInt(s, 16)` is NaN when s holds no hex digit at all. `ParseTwoHexDigits` gives its value on two hex digits. |
| ThemeDraft.Slice | app/dashboard/theme/page.tsx:43 | `s.slice(from, to)` is at most to − from long. It is `s[from..to]` when s is long enough, the tail from `from` when s ends inside the range, and empty when s ends before `from`. |
| ThemeDraft.DropFirstHash | app/dashboard/theme/page.tsx:43 | `replace('#', '')` keeps a string without '#' unchanged and otherwise removes exactly one character. |
| ThemeDraft.DropFirstHashSpec | app/dashboard/theme/page.tsx:43 | The character removed is the first '#': everything before and after it is kept. |
| ThemeDraft.ParseTwoHexDigits | app/dashboard/theme/page.tsx:43 | `parseInt(xy, 16)` of two hex digits is 16·x + y. |
| ThemeDraft.ContrastOnHexColor | app/dashboard/theme/page.tsx:42-45 | For a well-formed colour, the result is '#111827' exactly when r·299 + g·587 + b·114 ≥ 186000, with r, g and b its three bytes. |
| ThemeDraft.FontStackOf | app/dashboard/theme/page.tsx:51-55 | No contract of its own. `FontStackLeadsWithFont`, `FontStackStartsWith` and `FontStackInjective` state what the four stacks are. |
| ThemeDraft.FontStackLeadsWithFont | app/dashboard/theme/page.tsx:51-55 | A named font leads its own stack, and the System stack starts with `ui-sans-serif`. |
| ThemeDraft.FontStackStartsWith | app/dashboard/theme/page.tsx:51-55 | The four stacks start with four different characters. |
| ThemeDraft.FontStackInjective | app/dashboard/theme/page.tsx:51-55 | Different fonts get different stacks. |
| ThemeDraft.WithScheme | app/dashboard/theme/page.tsx:48 | The address handed to the parser starts with "http". An address that already does is kept, and any other gets "https://" in front. |
| ThemeDraft.WithSchemeIdempotent | app/dashboard/theme/page.tsx:48 | Adding the scheme twice equals adding it once. |
| ThemeDraft.NormalizeUrl | app/dashboard/theme/page.tsx:47-50 | The result is the parser's serialisation of the schemed address, or '' when parsing throws. For a parser that serialises every URL it accepts, the result is '' exactly when parsing throws. |
| ThemeDraft.FontAsWritten | app/dashboard/theme/page.tsx:67-69 | This is the source's font rule as written. A missing font gives 'System'. The rule throws exactly when `String(value)` throws. Otherwise the stored value itself, whatever its type, is kept exactly when its string form is one of the four font names, and the result is 'System' when it is not kept. |
| ThemeDraft.FontAsWrittenOnStrings | app/dashboard/theme/page.tsx:67-69 | On string inputs, the rule as written and the corrected rule agree. |
| ThemeDraft.FontAsWrittenKeepsArray | app/dashboard/theme/page.tsx:68 | `["Inter"]` is kept as an array, which is not a font, while the corrected rule gives System. |
| ThemeDraft.FontAsWrittenThrows | app/dashboard/theme/page.tsx:68 | `{"toString": 0}` makes the rule as written throw, while the corrected rule gives System. |
| ThemeEditor.ApplyTabEditOnlyField | app/dashboard/theme/page.tsx:141-142 | `{ ...tab, [k]: v }` sets field k to v and leaves every other field alone. Applying it twice equals applying it once. |
| ThemeEditor.Without | app/dashboard/theme/page.tsx:145 | No contract of its own. `WithoutSpec` states what the index filter keeps. |
| ThemeEditor.WithoutSpec | app/dashboard/theme/page.tsx:145 | The index filter drops exactly index i and keeps the rest in order. An index that names no tab removes nothing. |
| ThemeEditor.Snapshot | app/dashboard/theme/page.tsx:148-149 | `{ ...draft, site: { url: webUrl } }` carries the current address as its site address and keeps brand, navigation and home, so a well-formed draft gives a well-formed snapshot. |
| ThemeEditor.UrlAfterLoad | app/dashboard/theme/page.tsx:130 | The address after a load is never empty: it is the draft's own address when it has one. |
| ThemeEditor.Editor.constructor | app/dashboard/theme/page.tsx:117-120 | The first render holds the initial draft, its address, frame key 0, and no blocked frame. |
| ThemeEditor.Editor.Load | app/dashboard/theme/page.tsx:124-131 | A stored draft that parses is migrated and shown, with its address or the initial one. A missing or unparsable slot changes nothing, and storage is untouched. |
| ThemeEditor.Editor.SetWebUrl | app/dashboard/theme/page.tsx:204 | The address input's `setWebUrl(e.target.value)` (the setter declared at line 118) changes only the address. |
| ThemeEditor.Editor.SetBrand | app/dashboard/theme/page.tsx:137-138 | Only the one brand field changes. |
| ThemeEditor.Editor.SetHome | app/dashboard/theme/page.tsx:139-140 | Only the one home field changes. |
| ThemeEditor.Editor.SetTab | app/dashboard/theme/page.tsx:141-142 | Only field k of tab i changes. The other tabs, the length, brand, home, site, address and storage are unchanged. |
| ThemeEditor.Editor.AddTab | app/dashboard/theme/page.tsx:144 | Exactly one new tab is appended at the end: 'Yeni', 'https://ornek.com', emoji '✨'. Nothing else changes. |
| ThemeEditor.Editor.RemoveTab | app/dashboard/theme/page.tsx:145 | Only tab i is removed and the order of the rest is kept. Brand, home and site are unchanged. |
| ThemeEditor.Editor.SaveDraft | app/dashboard/theme/page.tsx:148 | Only the `theme_draft` slot is written. It receives the draft with its site address replaced by the current address. |
| ThemeEditor.Editor.PublishDraft | app/dashboard/theme/page.tsx:149 | Only the `theme_published` slot is written, with the same snapshot. |
| ThemeEditor.Editor.ResetAll | app/dashboard/theme/page.tsx:150-153 | Both slots are removed, the initial draft and address are restored, the frame key goes up by one, and the frame is no longer blocked. |
| ThemeEditor.SaveThenReopen | app/dashboard/theme/page.tsx:148 | Saving and then reopening brings back the saved draft in normal form, which for a well-formed draft is unchanged. The saved address comes back with it. |
| ThemeEditor.ResetThenReopen | app/dashboard/theme/page.tsx:150-153 | After save, publish and reset, reopening shows the initial draft. |
| LinkDiscovery.TextOf | app/api/uploadthing/route.ts:15-21 | The search text neither starts nor ends with white space. |
| LinkDiscovery.TextOfFindsKeyword | app/api/uploadthing/route.ts:15-21 | A keyword found in the lower-cased text, aria-label or title of an element is found in its search text. |
| LinkDiscovery.UpperCaseOrderLabel | app/api/uploadthing/route.ts:15-21 | A label "SIPARIŞ" reaches the keyword "sipariş", S-cedilla included. |
| LinkDiscovery.MatchAt | app/api/uploadthing/route.ts:27 | When the `location.href = '…'` pattern matches at an index, the capture is non-empty and holds no quote. |
| LinkDiscovery.RegexSplitIsMatchAt | app/api/uploadthing/route.ts:27 | Any way of matching `location\.href\s*=\s*['"]([^'"]+)['"]` (case-insensitive) at an index makes the scan succeed there, with the same group 1. |
| LinkDiscovery.MatchAtIsRegex | app/api/uploadthing/route.ts:27 | The scan succeeds at an index exactly when the regular expression matches there, and its result is the group 1 of that match. |
| LinkDiscovery.OnclickTarget | app/api/uploadthing/route.ts:27-28 | A found target is non-empty and holds no quote. |
| LinkDiscovery.OnclickTargetIsLeftmost | app/api/uploadthing/route.ts:27 | The scan fails exactly when no index matches. Otherwise it returns the capture at the leftmost matching index. |
| LinkDiscovery.HrefOf | app/api/uploadthing/route.ts:23-29 | A non-empty trimmed href is returned as it is. Otherwise the result is the onclick target when there is one, or '' when there is none. |
| LinkDiscovery.OnclickExample | app/api/uploadthing/route.ts:23-29 | A button with `onclick="location.href='/cart'"` and no href links to "/cart". |
| LinkDiscovery.Absolutize | app/api/uploadthing/route.ts:11-13 | The result is the resolved URL's serialisation, or '' when resolution throws. For a parser that serialises every URL it accepts, the result is '' exactly when resolution throws. |
| LinkDiscovery.CandidateOf | app/api/uploadthing/route.ts:48-52 | No contract of its own. `Candidates` states that each element gives the candidate `{hrefOf, absolutize, textOf}`, and the rows for `HrefOf`, `Absolutize` and `TextOf` state those parts. |
| LinkDiscovery.Candidates | app/api/uploadthing/route.ts:47-53 | There is exactly one candidate per element, in document order. None is dropped, including those with an empty href or address. |
| LinkDiscovery.FindFrom | app/api/uploadthing/route.ts:58 | `nodes.find` returns the first candidate that hits, or nothing when none does. |
| LinkDiscovery.HitAbs | app/api/uploadthing/route.ts:58-59 | `hit?.abs`: '' when no candidate hits, and a non-empty result is the address of a candidate that hits. |
| LinkDiscovery.Search | app/api/uploadthing/route.ts:57-65 | A phase answers only with a non-empty address that is the first hit's address for one of its keys. `SearchSpec` states which key. |
| LinkDiscovery.SearchSpec | app/api/uploadthing/route.ts:57-60 | Keys are tried in declared order. The first key whose first hit has an address decides, and the phase gives nothing exactly when no key has such a hit. |
| LinkDiscovery.SearchPicksCandidate | app/api/uploadthing/route.ts:55-67 | A phase answers only with the non-empty address of some candidate. |
| LinkDiscovery.Classify | app/api/uploadthing/route.ts:55-67 | No contract of its own. `ClassifyPicksCandidate`, `TextPhaseFirst` and `PathPhaseOnlyAfterText` state it, and `FindBy` is proved to compute it. |
| LinkDiscovery.ClassifyPicksCandidate | app/api/uploadthing/route.ts:55-67 | `findBy` returns '' or the address of some candidate. It never invents one. |
| LinkDiscovery.TextPhaseFirst | app/api/uploadthing/route.ts:55-67 | Once any keyword yields an address, the text phase's answer is returned and the path hints are never consulted. |
| LinkDiscovery.PathPhaseOnlyAfterText | app/api/uploadthing/route.ts:61-65 | When no keyword yields an address, the answer is the path phase's, or ''. |
| LinkDiscovery.FirstHitShadowsLaterOnes | app/api/uploadthing/route.ts:58-59 | If the first candidate a key hits has no address, that key yields nothing. This holds even when later candidates hit it with an address. |
| LinkDiscovery.FirstInDocumentOrder | app/api/uploadthing/route.ts:58-59 | Of two candidates hitting the same key, the earlier one in document order wins. |
| LinkDiscovery.NothingFoundOnEmptyPage | app/api/uploadthing/route.ts:55-67 | With no candidates, `findBy` returns ''. |
| LinkDiscovery.FirstHit | app/api/uploadthing/route.ts:58 | The `nodes.find` loop returns what `FindFrom` defines. |
| LinkDiscovery.FindBy | app/api/uploadthing/route.ts:55-67 | The two loops with early returns compute the two-phase classification. |
| LinkDiscovery.KeywordBeatsPathExample | app/api/uploadthing/route.ts:55-70 | A "sepetim" link to /xyz123 beats a "random" link to /cart. |
| LinkDiscovery.Validate | app/api/uploadthing/route.ts:32-36 | A missing or empty url gives 400 'Missing url', exactly. A url that does not parse gives 400 'Bad url', exactly. Otherwise the parsed base is accepted. |
| LinkDiscovery.WithFallbacks | app/api/uploadthing/route.ts:73-81 | A found link is kept. Otherwise home falls back to origin + '/', cart to '/cart' and orders to '/account/orders' resolved against the base. If a needed fallback resolution throws, the answer is 500. Its error is the thrown message, taken from the first failing resolution, or 'fetch-failed' when the thrown value is not an Error. |
| LinkDiscovery.Respond | app/api/uploadthing/route.ts:38-81 | Once the input is accepted, every failure is a 500. A fetch that throws gives 500 with the thrown value's message. |
| LinkDiscovery.Handle | app/api/uploadthing/route.ts:31-82 | Every failure is a 400 or a 500. |
| LinkDiscovery.ApplyFallbacks | app/api/uploadthing/route.ts:73-77 | The `\|\|` fallbacks, evaluated in order, compute `WithFallbacks`. |
| LinkDiscovery.Get | app/api/uploadthing/route.ts:31-82 | The handler computes `Handle`. It makes no request when the input is rejected, and exactly one request, for the parsed base, otherwise. |
| LinkDiscovery.RejectedBeforeFetch | app/api/uploadthing/route.ts:32-36 | The answer is a 400 exactly when validation rejects, and a rejection does not depend on the fetch. |
| LinkDiscovery.FetchFailureIs500 | app/api/uploadthing/route.ts:78-81 | A fetch that throws gives 500 with the error's message, or 'fetch-failed' for a thrown value that is not an Error. |
| LinkDiscovery.FoundOrFallback | app/api/uploadthing/route.ts:73-77 | Each link is a candidate's address or its role's fallback. |
| LinkDiscovery.LinksComeFromCandidatesOrFallbacks | app/api/uploadthing/route.ts:55-77 | Each link of a successful answer is a candidate's address or its role's fallback. |
| LinkDiscovery.FallbacksNonEmpty | app/api/uploadthing/route.ts:73-77 | With a parser that serialises what it accepts, no link is empty. |
| LinkDiscovery.LinksNonEmpty | app/api/uploadthing/route.ts:73-77 | A successful answer has non-empty home, cart and orders. |
| LinkDiscovery.EmptyPageFallbacks | app/api/uploadthing/route.ts:47-77 | A page with no link-like element gets all three fallbacks. |

## Left out

- `JsRuntime.NatToString`: writes every integer in plain decimal digits. `String(n)` switches to exponent form ("1e+21") from 10^21 upwards. The only number `String` reads here is a stored font, and no number's text form, plain or exponent, is a font name. So no result of the model changes.
- JavaScript strings are sequences of UTF-16 code units, while the model's strings are sequences of Unicode scalar values. Lengths and `slice` positions therefore differ for characters outside the Basic Multilingual Plane. No result differs. `trim`, `includes`, the six-digit colour pattern and the onclick pattern compare such a character only with Basic Multilingual Plane characters that are not surrogates, or with white space, and it matches none of them. `contrastOn` slices by position. A character outside that plane within the first four positions makes the red or green channel NaN or a single digit in both readings, and then neither can reach the dark-text threshold. Later positions give the same channels in both.
- Rendering is not modelled: all JSX, the colour, font and icon pickers, the phone frame, and `cn`. `app/page.tsx` and `app/dashboard/page.tsx` are static pages.
- The iframe-blocked detection (`tryLoad`, `onFrameLoad` and their 2500 ms timer) is timer behaviour. `frameBlocked` is modelled only as the state `resetAll` clears.
- The `alert` calls after save and publish are user-interface side effects.
- `hexToRgba` is left out because it produces floating-point CSS strings that no logic reads.
- Storage and JSON are simplified:
  - Real `localStorage` and `JSON.stringify`/`JSON.parse` are not modelled.
  - A slot holds either the parsed JSON value or "unparsable", which includes the empty string the load step ignores.
  - JSON numbers are integers, because only `String(x)` ever reads them.
- `JsRuntime.LowerCase`: maps A–Z, the Latin-1 capitals, the Latin Extended-A capitals (Ş to ş and Ğ to ğ included), 'İ' to "i" plus a combining dot, and the Kelvin sign to "k". Other scripts (Greek, Cyrillic and the rest) are kept unchanged. No keyword or path hint changes its hits: outside those blocks no character lower-cases to a character that occurs in a keyword or hint.
- URL parsing and serialisation (`new URL`, `.origin`, `toString`) are abstract functions that may throw. The only property assumed of them is that an accepted URL serialises to a non-empty string (`Serialises`).
- `fetch`, `res.text()` and the cheerio selection `a, [role="link"], button` are not modelled. They become one function from address to the matched elements, or a thrown error. The element's text is its cheerio `.text()`, given as data. The request options (redirects, User-Agent) are not modelled.
- `ThemeEditor.Editor.SetTab`: requires a valid index, as the page only passes indexes of rendered tabs. An out-of-range index in JavaScript would grow the array with holes, and that is not modelled.
- `ThemeEditor.Editor.SetBrand` and `ThemeEditor.Editor.SetHome` take one edit per field instead of a key and a value, and only values of the field's declared type.
- `LinkDiscovery.Handle`: its own contract says only that failures are 400 or 500. The full behaviour is in its body and in the lemmas `RejectedBeforeFetch`, `FetchFailureIs500`, `LinksComeFromCandidatesOrFallbacks`, `LinksNonEmpty` and `EmptyPageFallbacks`.
- Upload plumbing (`ThemeUploader.tsx`, `app/api/uploadthing/core.ts`, `app/utils/uploadthing.ts`) wraps a third-party service and is not part of this model.

## Findings

| source | as written | input that shows it | evidently intended | confidence | as-written member | corrected member |
|---|---|---|---|---|---|---|
| app/dashboard/theme/page.tsx:67-69 | `FONT_OPTIONS.includes(String(fontCandidate)) ? fontCandidate : 'System'` keeps the raw value whenever its string form is a font name. | stored `brand.fontFamily` = `["Inter"]` (`String` gives "Inter") | only a string that is one of the four names is kept; anything else becomes System | high; not executed | ThemeDraft.FontAsWrittenKeepsArray | ThemeDraft.MigrateFont |
| app/dashboard/theme/page.tsx:68 | `String(fontCandidate)` throws for a parsed object with an own `toString` key, so `migrateDraft` throws. The load step's empty `catch` then drops the whole stored draft. | stored `brand.fontFamily` = `{"toString": 0}` | `migrateDraft` is total and gives System for such a value | high; not executed | ThemeDraft.FontAsWrittenThrows | ThemeDraft.MigrateFont |
