# Mars Rover Dashboard — a verified model of the client

The dashboard is a single page. It keeps a three-field store:

- `roverSelected`: the chosen rover's name, or `''` when none is chosen.
- `data`: the backend's reply for that rover, or `''` while there is none.
- `rovers`: the fixed catalog `Spirit`, `Opportunity`, `Curiosity`.

Every change goes through `storeUpdate`. It shallow-merges a partial record into the store and re-renders the page into `root.innerHTML`. The section renderer `RoverData` makes a three-way decision:

- No rover is chosen: it shows one card per catalog rover.
- A rover is chosen but no data has arrived: it starts `fetch('/<rover>')` and shows nothing.
- Data has arrived: it shows the mission facts, a photo grid and two back buttons.

Two generic helpers build the lists. `joinMapperFunction` maps and joins. `wrappingDivFunction` wraps the result in a classed `div`.

The model has five modules:

- `Wrappers`: `Option`.
- `Markup`: the two generic helpers, and small readers (`Expect`, `Until`, `Inside`) that take markup apart again.
- `AppState`: the store as a value, the shallow merge `Merge`, the three partial records the page passes to `storeUpdate` (`Select`, `Back`, `Arrived`), and sequential runs of them.
- `Components`: the card and photo makers, `RoverData`, `App`, and readers for each kind of markup. What a rendered section shows is stated as a round trip: reading the markup back gives the cards, the photo sources and the mission facts.
- `Dashboard`: the store as a `Store` object whose `Update` merges in place and then renders. Rendering writes `App(store)` into a `page` field and records every path passed to `fetch`.

Modelling decisions:

- Falsy tests. `''` for `roverSelected` is kept as the empty string. `''` for `data` is the `NoData` case of `Data`. A reply always arrives as a JSON object, so it is truthy, and it is `Loaded`.
- Empty photo list. With data present and an empty photo list, `photos[0].earth_date` raises a `TypeError`. `RoverData` then returns `Threw` instead of markup. Because `render` is `async`, the exception only rejects its promise. The store has already been merged, `root.innerHTML` keeps its old contents, and no fetch is issued (`Store.Render`, `Dashboard.EmptyReplyThrows`).
- Selecting a rover does not clear `data`. The card handler passes only `{roverSelected: name}` (src/public/client.js:131), so `data` keeps whatever it held (`AppState.SelectChanges`). The 3000 ms delay before a selection takes effect lets two clicks both fire. Each resulting render issues a fetch unless a reply has already arrived (src/public/client.js:58-59); then the later selection shows that reply without fetching its own (`Dashboard.LateSelection`). So a reply can arrive for, or be shown under, a selection it was not fetched for. Such a reply is kept (`AppState.StepConsistent`). `Dashboard.StaleReply` follows a double click on one card, a back press after the first reply, and then the second reply: the next rover selected shows the first rover's reply, and nothing is fetched for it. `Dashboard.CrossedReplies` follows clicks on two cards whose replies come back in reverse order: the second rover's selection ends up showing the first rover's reply.
- Markup. The markup keeps the tags, classes, `onclick` handler texts and interpolated values of the template literals. It drops their indentation and line breaks, and keeps the static header and footer text of `App`. The photo `alt` text interpolates `state.selectedRover`, a field the store never has, so it is the text `undefined`.
- Element makers. In the source each element maker also receives `state`. Here they do not, because the only use of it is that undefined field.

## Model

| member | source | states |
|---|---|---|
| Markup.JoinMap | src/public/client.js:117-121 | the joined markup of an empty list is empty, and a non-empty list's markup is exactly the first item's markup followed by the joined markup of the rest |
| Markup.JoinMapSegment | src/public/client.js:117-121 | item i's markup sits right after the joined markup of the items before it, and the joined markup of the first i+1 items is exactly the first i items' markup followed by item i's |
| Markup.JoinMapAppend | src/public/client.js:117-121 | the markup of two lists one after the other is the first list's markup followed by the second's |
| Markup.WrappingDiv | src/public/client.js:103-109 | the result is an opening `<div class="…">` carrying the given class, then exactly the mapper's output for the items, then `</div >` |
| AppState.Merge | src/public/client.js:11-12 | shallow merge: every field the partial names takes the partial's value, and every other field, `rovers` included, keeps the store's value |
| AppState.MergeIdempotent | src/public/client.js:11-12 | merging the same partial twice is the same as merging it once |
| AppState.MergeTwice | src/public/client.js:11-12 | two merges in a row equal one merge of both partials, with the later partial winning on every field both name |
| AppState.SelectChanges | src/public/client.js:131 | a rover card's update sets `roverSelected` to that card's rover and changes nothing else |
| AppState.BackChanges | src/public/client.js:86 | a back button's update sets `roverSelected` and `data` to empty and leaves `rovers` alone |
| AppState.ArrivedChanges | src/public/client.js:156 | the fetch's update replaces only `data`, whatever rover is selected |
| AppState.BackIdempotent | src/public/client.js:86-89 | back twice leaves the same store as back once, and back on the initial store changes nothing |
| AppState.PartialOf | src/public/client.js:131 | the records of the three call sites (line 131 for the card; 86 and 89 for back; 156 for the reply): none names `rovers`, only the card's leaves `data` out, and only the reply's leaves `roverSelected` out |
| AppState.Step | src/public/client.js:11-12 | one `storeUpdate` call from a call site never changes the rover list |
| AppState.Run | src/public/client.js:5 | no sequence of the page's three updates ever changes the rover list declared at line 5 |
| AppState.StepConsistent | src/public/client.js:156 | from a store where "no rover" implies "no data", every update keeps that, except a reply arriving while no rover is selected and the selection of an empty-named rover while data is shown |
| Components.RoverCard | src/public/client.js:128-135 | a card starts with the `rover-card` button and handler text; the quoted name in its handler and its title are both exactly the rover |
| Components.PhotoElement | src/public/client.js:142-147 | an image element starts with the `photo` image tag, and its `src` value is exactly the URL |
| Components.InfoList | src/public/client.js:78-85 | the info list starts with the `info-container` list and the rover's name, and ends with the photo date and the list's close |
| Components.RoverPath | src/public/client.js:151-154 | the fetched path is `/` followed by exactly the selected rover's name |
| Components.CardRoundTrip | src/public/client.js:128-135 | reading a rover card back gives the rover its handler selects and its title, both equal to the card's rover |
| Components.CardsRoundTrip | src/public/client.js:128-135 | reading back the joined cards of a list gives one card per rover, in list order, each selecting and titled with its rover |
| Components.PhotoRoundTrip | src/public/client.js:142-147 | reading an image element back gives exactly the URL it was made from as its `src` |
| Components.PhotosRoundTrip | src/public/client.js:142-147 | reading back the joined image elements of a list gives exactly that list of sources, in order |
| Components.InfoRoundTrip | src/public/client.js:78-85 | reading the info list back gives the rover's name, launch date, landing date and status, and the one photo date it was made from |
| Components.RoverData | src/public/client.js:42-91 | the render throws exactly when a rover is selected and the data has no photos; a fetch is requested exactly when a rover is selected and there is no data, and then the path is `/` + the rover and the markup is empty |
| Components.RoverListView | src/public/client.js:46-51 | with no rover selected, the section is a `rover-container` div that reads back as one card per rover of the store, in list order, each selecting and titled with that rover, and nothing is fetched |
| Components.DetailView | src/public/client.js:63-90 | with data present, the section reads back as the mission facts of `photos[0].rover`, the date of `photos[0]` once, and a `photo-container` grid holding one image per photo, in payload order, each with that photo's `img_src`, between two back buttons; nothing is fetched |
| Components.App | src/public/client.js:21-34 | the page is the static header and footer around exactly the section's markup; it throws when the section throws, and it requests the section's fetch |
| Dashboard.Store.constructor | src/public/client.js:2-6 | the store starts with no rover, no data and the three-rover catalog |
| Dashboard.Store.Render | src/public/client.js:16-18 | the page becomes `App` of the store and the section's fetch, if any, is issued once; a render that throws leaves the page and the fetches as they were |
| Dashboard.Store.Update | src/public/client.js:11-14 | the store becomes the merge of the old store and the partial, and is then rendered |
| Dashboard.Store.Dispatch | src/public/client.js:131 | the update of any of the three call sites (line 131 for the card; 86 and 89 for back; 156 for the reply) moves the store one step, never changes `rovers`, and renders |
| Dashboard.InitialPage | src/public/client.js:36-38 | the first render shows exactly the cards Spirit, Opportunity, Curiosity in that order and fetches nothing |
| Dashboard.FetchCycle | src/public/client.js:151-157 | selecting a rover renders an empty section and requests `/<rover>`; after the reply, the section shows the reply's mission facts and one image per photo |
| Dashboard.StaleReply | src/public/client.js:156 | after a double click on one card, both selections fetch `/<rover>`; the first reply shows the detail view; back shows the cards; the second reply is then kept, and the next rover selected shows it, unfetched, as its detail |
| Dashboard.CrossedReplies | src/public/client.js:156 | after clicks on two cards, each selection fetches its own rover; if the replies come back in reverse order, the second rover's detail is shown and is then replaced by the first rover's reply, still under the second rover's selection |
| Dashboard.LateSelection | src/public/client.js:58-60 | when the second card's selection takes effect after the first rover's reply has arrived, the first selection fetches `/<first rover>` and shows its reply; the second selection fetches nothing and shows the first rover's reply under the second rover's name |
| Dashboard.SelectionFetchesOnce | src/public/client.js:11-18 | driving the store object through a first render, a selection, its reply (with or without photos) and back: the section is empty while the fetch is pending, exactly one fetch is made, for `/<rover>`, and back restores the initial store and its page |
| Dashboard.EmptyReplyThrows | src/public/client.js:70 | after a reply with no photos, rendering the selected rover throws |

## Left out

- `document.getElementById`, the `window` load listener and the DOM write are browser I/O. `root.innerHTML` is the `page` field of `Store`. The load listener's single render is a call of `Store.Render`.
- `fetch`, `res.json()` and the promise chain in `getRoverData` are network and asynchronous plumbing. A fetch is the path recorded in `Store.fetched`. Its reply is the `Arrived` action. Network and parse failures never deliver a reply, so they are not modelled.
- The 3000 ms `setTimeout` before a card's selection takes effect is timing. Updates are applied one at a time, in some sequential order. The interleavings the delay allows are covered only by the three traces of `Dashboard.StaleReply`, `Dashboard.CrossedReplies` and `Dashboard.LateSelection`. None of these traces is derived from a model of the timer.
- `Immutable.List` is a foreign library. The catalog is a plain sequence.
- JSON values other than the documented reply shape are not modelled: missing `results`, non-string fields, falsy replies.
- Other keys in the partial record are not modelled. `Merge` covers only the store's three fields, the only ones the page passes.
- Components.CardRoundTrip: the read-back is stated only for a rover name without `'` or `<`, either of which would end the handler's quoted string or the card title early.
- Components.CardsRoundTrip: stated only for rover names without `'` or `<`, as for one card.
- Components.RoverListView: stated only for rover names without `'` or `<`, as for one card; the catalog's three names qualify.
- Components.PhotoRoundTrip: stated only for a URL without `"`, which would end the `src` attribute.
- Components.PhotosRoundTrip: stated only for URLs without `"`, as for one image.
- Components.InfoRoundTrip: stated only for mission facts and a date without `<`, which would end an `<li>` early.
- Components.DetailView: stated only for first-photo facts without `<` and URLs without `"`, as for the info list and the images.
- Dashboard.FetchCycle: stated only for replies whose facts and URLs meet the same conditions as Components.DetailView.
- Dashboard.StaleReply: stated only for replies whose facts and URLs meet the same conditions as Components.DetailView.
- Dashboard.CrossedReplies: stated only for replies whose facts and URLs meet the same conditions as Components.DetailView.
- Dashboard.LateSelection: stated only for a reply whose facts and URLs meet the same conditions as Components.DetailView.
