# favorite-countries: a verified model of the favourites state

The application is a single React component, `App`. It fetches the list of all countries once on mount. It keeps a `like` flag on each country and shows two grids: "Favorite Countries" (liked) and "Countries" (not liked). Clicking a card toggles `like` for every country with that card's name. This project models that component's state and its list logic in Dafny:

- `wrappers.dfy`, module `Wrappers`: `Option`, for the nullable `error` state.
- `countries.dfy`, module `Countries`: the pure part.
  - The `Country` record keeps `name.common`, `capital`, `flags.png` and `like`.
  - `InitLoad` is the copy made from the response.
  - `Toggle` is the `map` behind `toggleLike`.
  - `Keep` is the one filter behind both grids: `Liked` is the favourites grid and `Others` the other grid.
  - The lemmas state involution, frame conditions, partition and order preservation.
- `app.dfy`, module `Favorites`: the component itself.
  - `FetchOutcome` is how the fetch settles: a response, an axios error, or any other exception.
  - `View` is what one render shows. `SelectView` is the loading/error/grids precedence.
  - `class App` holds the three `useState` cells as fields. They are changed by `Settle` (the try/catch/finally of `fetchData`) and `ToggleLike`. `Valid()` is the invariant the methods keep: while loading, there is no error and there are no countries.
- `scenarios.dfy`, module `Scenarios`: client methods.
  - Each one mounts an `App`, settles the fetch, clicks cards and observes the result through `Render`.
  - They include the concrete one-country ("Korea") load/click/click sequence, a "Network Error" failure and an empty response.

The model follows `src/App.tsx` on these points:
- only an error that is an `AxiosError` instance is stored. Any other exception leaves both `error` and `countries` untouched, but loading still ends.
- `toggleLike` has no guard on the loading or error state. `ToggleLike` has none either; its contract, through the invariant `Valid()`, shows that a click while loading changes nothing, because the list is empty then.
- records that share a name are all toggled together.

## Model

| member | source | states |
|---|---|---|
| Countries.InitLoad | src/App.tsx:22-26 | the loaded list has the response's length and order; each record keeps its name, capital and flag; every `like` is false, whatever the response carried |
| Countries.Toggle | src/App.tsx:43-51 | same length; every record keeps its position, name, capital and flag; `like` is negated exactly at the records whose name equals the argument (all of them, not only the first); every other record is returned unchanged |
| Countries.ToggleNoMatch | src/App.tsx:46-48 | when no record carries the name, toggling returns the list unchanged |
| Countries.ToggleInvolutive | src/App.tsx:43-51 | toggling the same name twice in a row is the identity on the list |
| Countries.ToggleCommutes | src/App.tsx:43-51 | toggles of two names give the same list in either order |
| Countries.Keep | src/App.tsx:66-67 | a filter result is no longer than the list, and every record in it has `like` equal to the filter's flag |
| Countries.KeepMembers | src/App.tsx:66-89 | for both filters (66-67 and 88-89): a record is in a filter result exactly when it is in the list and its `like` equals the filter's flag |
| Countries.Liked | src/App.tsx:66-67 | the favourites grid is no longer than the list and holds only liked records; its membership, order and partition with `Others` are proved through `Keep`'s lemmas |
| Countries.Others | src/App.tsx:88-89 | the other grid is no longer than the list and holds only records that are not liked; its membership, order and partition with `Liked` are proved through `Keep`'s lemmas |
| Countries.PositionsExact | src/App.tsx:66-67 | the filter's positions lie inside the list, increase strictly, and are exactly the positions whose `like` equals the flag |
| Countries.KeepIsSubsequence | src/App.tsx:66-67 | each grid is the list read at strictly increasing positions, namely exactly those whose `like` equals the flag, so the original relative order is kept |
| Countries.PartitionMultiset | src/App.tsx:66-67 | the favourites grid and the other grid together hold every record exactly as often as the list |
| Countries.PartitionLength | src/App.tsx:66-89 | for the filters at 66-67 and 88-89: the lengths of the two grids add up to the length of the list |
| Countries.PartitionExactlyOne | src/App.tsx:66-67 | a record is in the list exactly when it is in one of the grids, and it is never in both |
| Countries.InitLoadPartition | src/App.tsx:22-27 | right after a load the favourites grid is empty and the other grid is the whole loaded list |
| Countries.ToggleLikedMembers | src/App.tsx:43-51 | after toggling a name, the favourites are the former favourites with other names plus the former non-favourites with that name, now liked |
| Favorites.SelectView | src/App.tsx:53-60 | the loading view appears exactly while loading; the error view, carrying the error's message, appears exactly when not loading and an error is stored; the grids appear exactly when neither holds, and they are the liked filter and then the not-liked filter |
| Favorites.GridsPartitionCountries | src/App.tsx:62-107 | when the grids are rendered, they hold every stored record exactly once between them, and each grid is in load order |
| Favorites.App.constructor | src/App.tsx:15-17 | on mount the component is loading, with no error and no countries |
| Favorites.App.Settle | src/App.tsx:19-37 | loading ends whatever the outcome; a response replaces the list by its copy with `like` reset; an axios error is stored; any other failure stores nothing; the invariant is kept |
| Favorites.App.ToggleLike | src/App.tsx:43-51 | the list becomes its toggle by the name; loading flag and error are untouched; a click while loading leaves the list as it was; the invariant is kept |
| Favorites.App.Render | src/App.tsx:53-107 | one render: the view `SelectView` picks from the current state, so loading exactly while loading and the error view exactly when settled with an error; when the grids are shown they hold every stored record exactly as often as the list and their lengths add up to its length |
| Scenarios.MountPending | src/App.tsx:53-55 | before the fetch settles, only the loading view is rendered, even after a click |
| Scenarios.MountAndLoad | src/App.tsx:19-41 | after a successful fetch the favourites grid is empty, and the other grid holds every response record in order, unliked |
| Scenarios.MountAndFail | src/App.tsx:28-31 | after an axios failure only the error view with the error's message is rendered |
| Scenarios.MountAndOtherFailure | src/App.tsx:31-36 | after any other failure the component renders two empty grids and no error |
| Scenarios.LoadAndClick | src/App.tsx:43-51 | after a load and one click, the favourites are exactly the loaded records with that name, now liked, and the two grids together are as long as the response |
| Scenarios.KoreaRoundTrip | src/App.tsx:43-107 | loading one record "Korea"/"Seoul" renders it unliked in the other grid; a click moves it, liked, to the favourites grid; a second click renders what the load rendered |
| Scenarios.NetworkErrorAndEmptyResponse | src/App.tsx:19-60 | an axios error with message "Network Error" renders only the error view with that message; an empty response renders two empty grids |
| Scenarios.LoadAndClickTwice | src/App.tsx:43-51 | after a load and two clicks on the same name, the render equals the render right after the load |

## Left out

- `src/api/countries.ts`, the HTTP GET to the country service. It is network I/O, so the model takes the way the fetch settles (`FetchOutcome`) as an input.
- `async`/`await`, the `useEffect` mount scheduling and a state update arriving after unmount. Settling is one atomic call to `Settle`, made by the client.
- JSX, `styled-components` and CSS (src/App.tsx:62-158). Only the selected view and the two filtered sequences are modelled, not the markup or the card `key`s.
- The `console.log` calls (src/App.tsx:32, 58) and the display strings.
- The object spread `{...country}` copies fields of the raw record other than `name`, `capital` and `flags`. The model's `Country` has only those fields and `like`.
- `capital` is modelled as a single string, as the source's interface declares it.
- The response is taken to be well formed: `Success` carries complete records. A `null` element makes the `map` at src/App.tsx:22-26 throw, which is the `OtherFailure` outcome. A record without `name` survives the `map` but then makes `toggleLike` (src/App.tsx:46) and the render (src/App.tsx:70) throw; that failure is not modelled.
- Countries.Toggle: the source returns the very same object for unmatched records, so React can compare by identity. The model can only state that the record is equal by value.
