# Header scroll state and ideas proxy: a Dafny model

This project models the two pieces of logic in a small marketing web front end.

- **The fixed header's scroll behaviour** (`component/header.tsx`), in `header.dfy`, module `Header`. The component keeps four pieces of state: whether the header is visible, whether it is see-through, the scroll position read by the last frame, and a `ticking` flag.
  - A scroll event requests one animation frame, but only when no frame is already pending.
  - The frame reads the scroll position and picks one of three regimes. At position 0 the header is shown and opaque. After a move down of more than 15 pixels it is hidden and opaque. After a move up of more than 15 pixels it is shown and see-through. Smaller moves leave it as it is.
  - The frame then records the position it read and clears the flag.
  - `HeaderState` is a class with these fields. `OnScroll` and `OnFrame` are its methods. `NextView`, `Step` and `Run` are the same behaviour as functions, over one event or a trace of events.
- **The `/api/ideas` proxy route** (`pages/api/ideas.ts`), in `ideas.dfy`, module `IdeasApi`.
  - Any method other than GET gets 405.
  - A GET builds the upstream query: two fixed `append[]` entries, the sort key mapped from the client's `sort`, then `page[number]` and `page[size]` with defaults. The handler then calls the remote source.
  - The reply is 200 with the upstream body, or 500 with a generic error.
  - The upstream call is an abstract `Outcome` (`Ok(body)`, `NotOk`, `Thrown`).
  - `Handle` is the whole handler as a function. `Handler` is the same handler run imperatively against a `ResponseWriter`. `BuildParams` builds the query with `append`/`set` steps.
  - The `set` operation of `URLSearchParams` is modelled as section 6.2 of the WHATWG URL Standard defines it: it replaces the first entry with that name and drops the later ones, or appends if there is none. So the entry order `BuildParams` ensures follows from the definition of `set` instead of being assumed. Every `set` in the handler is on a fresh name, so each one acts as an append.

## Model

| member | source | states |
|---|---|---|
| `Header.NextView` | component/header.tsx:17-29 | Position 0 gives shown and opaque, whatever came before. A non-zero position greater than the last frame's position by more than 15 (scrolled down) gives hidden and opaque; one less than it by more than 15 (scrolled up) gives shown and see-through. One within ±15 keeps the view. A changed view is never hidden and see-through, and a coherent view stays coherent. |
| `Header.Step` | component/header.tsx:12-35 | A scroll raises the pending flag and changes nothing else, and a scroll while a frame is pending changes nothing at all. A frame gives the view `NextView` computes, records the position read and clears the flag. |
| `Header.HeaderState.constructor` | component/header.tsx:6-9 | Initial state: visible, not transparent, last position 0, no frame pending. |
| `Header.HeaderState.OnScroll` | component/header.tsx:12-35 | Schedules a frame exactly when none is pending. A scroll while a frame is pending schedules nothing and changes nothing. Afterwards exactly one frame is pending. View and last position are unchanged. |
| `Header.HeaderState.OnFrame` | component/header.tsx:14-33 | The new view is `NextView` of the old view, the old last position and the position read. The last position becomes the position read, whichever branch ran. The pending flag is cleared. The coherence invariant is kept. |
| `Header.RunKeepsCoherent` | component/header.tsx:17-29 | No sequence of scroll and frame events, from a coherent state, leads to a hidden see-through header. |
| `Header.ReachableCoherent` | component/header.tsx:6-29 | Every state reachable from the initial state has a header that is never hidden and transparent at once. |
| `Header.RunRecordsLastRead` | component/header.tsx:31 | After any trace, the recorded position is the one read by the latest frame, or the starting one if no frame ran. |
| `Header.SmallMovesKeepView` | component/header.tsx:21-31 | The threshold is measured from the previous frame, not from the last change of regime. Frames that each read a non-zero position within 15 of the frame before leave the view unchanged, however far they travel in total. |
| `Header.ThresholdIsPerFrame` | component/header.tsx:21-31 | Scrolling down 60 pixels in four frames of 15 keeps the header shown. The same 60 pixels in one frame hide it. |
| `Header.AtMostOnePending` | component/header.tsx:12-35 | In any trace where frames run only when requested, the frames scheduled equal the frames run, adjusted by the pending flag at start and end. So at most one frame is ever outstanding. |
| `IdeasApi.AppendParam` | pages/api/ideas.ts:16-17 | `append` adds exactly one entry at the end and keeps the earlier ones. |
| `IdeasApi.SetParam` | pages/api/ideas.ts:20-24 | `set` on a name not yet in the list is exactly an append. |
| `IdeasApi.SetParamReplaces` | pages/api/ideas.ts:20-24 | After `set`, the name reads back the value set. Entries with other names keep their values and their order. |
| `IdeasApi.SetParamKeepsPlace` | pages/api/ideas.ts:20-24 | A `set` on a name already present puts the entry in the place of the first entry with that name. The entries before it are unchanged and no later entry has the name, so it occurs exactly once. |
| `IdeasApi.UpstreamSort` | pages/api/ideas.ts:20 | The upstream sort is `published_at` exactly when the client's `sort` is `"oldest"`. For any other value, or when it is absent, it is `-published_at`. |
| `IdeasApi.QueryOr` | pages/api/ideas.ts:23-24 | A present, non-empty query value is passed through as it is, with no numeric parsing or clamping. An absent or empty one gives the default. |
| `IdeasApi.BuildParams` | pages/api/ideas.ts:13-24 | Starting from an empty list, two appends and three sets give exactly this list, in this order: `append[]=small_image`, `append[]=medium_image`, `sort`, `page[number]` (default `"1"`), `page[size]` (default `"10"`). |
| `IdeasApi.ExpectedParamsRead` | pages/api/ideas.ts:20-24 | Read back from the query, `sort` is `published_at` exactly for `"oldest"`. The page values are the client's when present and non-empty, otherwise `"1"` and `"10"`. |
| `IdeasApi.Handle` | pages/api/ideas.ts:4-41 | Status 405 exactly for a method other than GET, with body `{error: "Method not allowed"}` and no upstream request. For GET, the upstream request goes to the remote endpoint with the expected query and an `Accept: application/json` header. Status 200 exactly for GET with an ok outcome, relaying its body unchanged. Status 500 exactly for GET with a non-ok or thrown outcome, with body `{error: "Internal server error"}`. No other status is possible. |
| `IdeasApi.Handler` | pages/api/ideas.ts:4-41 | Run against a fresh reply object, the status written, the body sent and the upstream request made are exactly those of `Handle`. |
| `IdeasApi.ResponseWriter.Status` | pages/api/ideas.ts:36 | `res.status(code)` sets the status code and leaves the body alone. |
| `IdeasApi.ResponseWriter.Json` | pages/api/ideas.ts:40 | `res.json(body)` sends the body and leaves the status alone. |

## Left out

- `component/banner.tsx`: the parallax offset is a floating-point product that feeds a CSS transform. It is rendering only.
- `component/list.tsx`, `app/page.tsx`, `next.config.ts`: static markup, composition and framework configuration, with no logic to model.
- The header's menu table and its class names (`component/header.tsx:42-105`) are rendering only.
- Registering the scroll listener and the browser's real frame scheduling (`component/header.tsx:14`, `38-39`) are not modelled. Only the pending flag is. A frame's scroll position is a parameter of `OnFrame`.
- `Header.HeaderState.OnFrame`: requires a pending frame because the browser runs only callbacks that were scheduled. `Step` and `Run` are total, so the coherence and threshold lemmas hold even for traces the browser cannot produce.
- React's batching of `setIsHeaderVisible`/`setIsHeaderTransparent` into a later render is not modelled. The class fields hold the values last set, which is what the next frame sees, since it reads no state.
- Scroll positions are integers. Browsers may report fractional `window.scrollY`.
- The `fetch` call, the `response.json()` parse and the `console.error` logging (`pages/api/ideas.ts:27-33`, `39`) are network and foreign calls. They are the abstract `Outcome`, and a failed parse is folded into `Thrown`.
- The upstream body is an opaque value (`Payload`). Re-serialising it in `res.json` is taken as relaying it unchanged.
- Percent-encoding the query in `URLSearchParams.toString()` is library behaviour. The model keeps the entry list, not the encoded URL string.
- Query values given as arrays, which the framework joins with `toString()`, are not modelled. Query values are optional strings.
