# Futurama characters screen: a Dafny model

This is a model of the decision logic of the Home screen in `src/pages/Home.tsx`. The screen fetches the first 50 Futurama characters from a remote API and shows them as cards. Each card has an avatar with an image fallback and a status badge. The model has four modules:

- `Characters`: the `Character` record the API returns (id, name, gender, status, species, creation time, image URL).
- `JsStrings`: the two ECMAScript string operations the screen uses. `Trim` removes leading and trailing whitespace like `String.prototype.trim`, using the full ECMAScript whitespace and line-terminator set. `Includes` is `String.prototype.includes`, and a lemma proves it equal to an independent "occurs at some index" definition.
- `Presenter`: the per-card derivations.
  - The avatar's initial `src`. The model proves it is never empty. It is the record's image when that image has a non-whitespace character, and the placeholder `/futurama-logo.png` otherwise.
  - The `onError` handler, as the `AvatarImage` class whose `src` the handler changes in place. The model proves that it substitutes the placeholder at most once and that repeating it changes nothing.
  - The badge colour: `ALIVE` gives success, `DEAD` gives danger, and every other string gives medium.
- `Screen`: the fetch lifecycle.
  - The three state cells are fields of the `HomeScreen` class. Its methods `StartLoad`, `Settle` and `LoadCharacters` are proved against the functions `Started`, `Settled` and `Loaded` over the `ScreenView` value.
  - The HTTP request becomes an input `FetchResult`: `Ok(items)` or `Failed`.
  - The visibility conditions of the error banner and of the "no characters" message are also in this module.
  - The lemmas cover the first load and repeated loads.

Two points about what the code does, which the model follows:

- **A failed load keeps the list.** The code never touches `characters` on failure (src/pages/Home.tsx:55-57). A failed load therefore keeps whatever the list held, which on the first load is empty. The screen calls `loadCharacters` only from its mount effect (src/pages/Home.tsx:63-65) and has no refresh control. A second call of `loadCharacters` after a successful one would leave the old list beside the error banner if it failed (`StaleListBesideError`), but the screen never makes such a call.
- **No guard for late results.** The code has no guard against a result that arrives after the screen is unmounted, so the model has none either.

## Model

| member | source | states |
|---|---|---|
| JsStrings.TrimStart | src/pages/Home.tsx:104 | the result is a suffix of the input, every dropped character is whitespace, and the result does not start with whitespace |
| JsStrings.TrimEnd | src/pages/Home.tsx:104 | the result is a prefix of the input, every dropped character is whitespace, and the result does not end with whitespace |
| JsStrings.Trim | src/pages/Home.tsx:104 | the trimmed image is a slice of the input with only whitespace cut off both ends; it is empty exactly when every character is whitespace, and otherwise starts and ends with a non-whitespace character |
| JsStrings.Includes | src/pages/Home.tsx:114 | `s.includes(t)`: true only when `t` fits in `s`, and true whenever `t` is a prefix of `s`; its full meaning is `IncludesIff` |
| JsStrings.IncludesIff | src/pages/Home.tsx:114 | `includes(s, t)` holds exactly when `t` occurs in `s` at some index, in both directions |
| JsStrings.IncludesSelf | src/pages/Home.tsx:114 | a string includes itself, so the placeholder reference always passes the guard |
| Presenter.AvatarSource | src/pages/Home.tsx:104-107 | the avatar source is never empty; it is the record's image unchanged when that has a non-whitespace character, and the placeholder when it is empty or all whitespace |
| Presenter.AvatarSourceExamples | src/pages/Home.tsx:104-107 | `""` and a whitespace-only image fall back to the placeholder; `https://x/y.png` is kept unchanged |
| Presenter.AfterImageError | src/pages/Home.tsx:110-117 | after an error event the source refers to the placeholder: a source that already includes it is left unchanged, and any other source becomes exactly `FALLBACK_IMAGE` |
| Presenter.AfterImageErrorIdempotent | src/pages/Home.tsx:110-117 | handling a second error event changes nothing: the handler cannot loop |
| Presenter.FallbackNotReplaced | src/pages/Home.tsx:104-117 | when the record has no usable image, the placeholder shown is not replaced when it fails to load |
| Presenter.AtMostOneSubstitution | src/pages/Home.tsx:110-117 | any number n >= 1 of error events leaves the same source as the first one |
| Presenter.AvatarImage.constructor | src/pages/Home.tsx:103-107 | the element starts with the resolved avatar source and no substitution |
| Presenter.AvatarImage.OnError | src/pages/Home.tsx:110-117 | the handler sets `src` to the placeholder unless it already includes it, counts a substitution only when it changes `src`, and keeps the invariant "at most one substitution, after which `src` is the placeholder" |
| Presenter.StatusColor | src/pages/Home.tsx:128-135 | the colour is success exactly for `ALIVE`, danger exactly for `DEAD`, and medium exactly for every other status |
| Presenter.UnrecognisedStatusIsNeutral | src/pages/Home.tsx:130-134 | `UNKNOWN`, the empty status and differently cased statuses get the neutral colour |
| Screen.Initial | src/pages/Home.tsx:27-29 | the screen starts loading, with no characters and no error; only the loading overlay is shown |
| Screen.Started | src/pages/Home.tsx:37-38 | starting a load sets loading, clears the error and keeps the list; neither message is shown |
| Screen.Settled | src/pages/Home.tsx:52-60 | settling always clears loading; success stores the items verbatim and leaves the error cell alone; failure sets the fixed message and keeps the list |
| Screen.Loaded | src/pages/Home.tsx:35-61 | a whole load: on success the state is exactly the items, not loading, no error; on failure the previous list, not loading, the fixed message |
| Screen.LoadSucceeds | src/pages/Home.tsx:35-61 | a successful load ends with exactly the response items, in order, with no error and no banner |
| Screen.LoadFails | src/pages/Home.tsx:35-61 | a failed load ends with the previous list, the fixed message and the banner, and without the empty-list message |
| Screen.LoadSettles | src/pages/Home.tsx:35-61 | no load leaves the screen loading; the only error held is the fixed one; the error is absent exactly when the request succeeded |
| Screen.FirstLoad | src/pages/Home.tsx:27-90 | after the first load: the banner shows exactly on failure; the empty-list message shows exactly on an empty success; the list is non-empty exactly on a non-empty success; the list stays empty on failure |
| Screen.ShowLoading | src/pages/Home.tsx:78 | the loading overlay is never open together with the empty-list message |
| Screen.ShowErrorBanner | src/pages/Home.tsx:80-84 | in a consistent state the banner is shown exactly when the error cell holds the fixed message |
| Screen.ShowEmptyMessage | src/pages/Home.tsx:80-90 | the empty-list message never appears with the error banner or the loading overlay; in a consistent state it shows exactly when not loading, the list is empty and there is no error |
| Screen.LastSuccessWins | src/pages/Home.tsx:35-61 | after repeated calls of `loadCharacters`, each completed before the next, the list holds the items of the last successful load |
| Screen.NoSuccessKeepsList | src/pages/Home.tsx:53-57 | loads that all fail leave the list unchanged |
| Screen.LastLoadDecidesError | src/pages/Home.tsx:37-59 | after one or more loads nothing is loading, and the error is absent exactly when the last load succeeded |
| Screen.StaleListBesideError | src/pages/Home.tsx:53-84 | a second, failed call of `loadCharacters` after a successful one leaves the earlier list together with the error banner |
| Screen.OverlappingLoads | src/pages/Home.tsx:35-65 | two overlapping calls whose failure settles before the success end with the new list, not loading, and the error banner still shown |
| Screen.HomeScreen.constructor | src/pages/Home.tsx:27-29 | the state cells start as the initial state |
| Screen.HomeScreen.StartLoad | src/pages/Home.tsx:37-38 | the cells become `Started` of the previous state |
| Screen.HomeScreen.Settle | src/pages/Home.tsx:52-60 | the cells become `Settled` of the previous state and the request outcome |
| Screen.HomeScreen.LoadCharacters | src/pages/Home.tsx:35-61 | the cells become `Loaded` of the previous state; loading is off and the error cell is consistent afterwards |

## Left out

- Repeated loads: `loadCharacters` is called only from the mount effect (src/pages/Home.tsx:63-65). The repeated-load lemmas (`LastSuccessWins`, `NoSuccessKeepsList`, `LastLoadDecidesError`, `StaleListBesideError`) describe further calls made one after another, which the screen never makes. React repeats the effect only in development under StrictMode, and there the two calls overlap. In that case a failure that settles first leaves the banner beside the new list (`OverlappingLoads`), and `LastLoadDecidesError` does not apply. Other interleavings are not modelled.
- The axios request (src/pages/Home.tsx:40-51), meaning the endpoint, the query parameters and the 8000 ms timeout. This is network I/O. Its outcome is the `FetchResult` input. A timeout, a network error and an error status are all `Failed`.
- Checking the response body. The code trusts `response.data.items` without checking it. An object or string body without `items` stores `undefined` in the list without taking the failure path, and the next render then fails at `characters.length` (src/pages/Home.tsx:86). A `null` body makes `response.data.items` throw, and the `catch` turns that into the failure message. The model assumes the body is well formed.
- React scheduling: `useState` setter batching and the `useEffect` mount trigger (src/pages/Home.tsx:63-65). Each settle is one atomic transition. Overlapping loads are covered only by the one interleaving that `OverlappingLoads` states.
- A result arriving after the screen is torn down. The code has no cancellation guard, so there is nothing to model.
- `console.error` logging (src/pages/Home.tsx:56) and all Ionic/JSX markup (src/pages/Home.tsx:67-153), apart from the two visibility conditions and the loading overlay flag.
- Browser URL resolution of `img.src`. The browser reads `src` back as an absolute URL, which is why the guard uses `includes` and not equality. The model keeps `src` as the literal string assigned.
- Lone UTF-16 surrogates: strings here are sequences of Unicode scalar values. A JavaScript string can also hold lone UTF-16 surrogates, which the model cannot represent. Every whitespace character `trim` removes is a single code unit, so this changes nothing for representable strings.
