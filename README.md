# Photography website page scripts, modelled in Dafny

This project models the browser scripts of a photography portfolio site.
Each script's state and handlers are written out in Dafny, and the
properties the pages rely on are proved.

- **main.js**, one module per concern:
  - The one-shot start-up gate: `initializeMain` is entered from the `includesLoaded` event or from a 1000 ms fallback timer (`InitGate`). includes.js fires that event with jQuery's `$(document).trigger` (includes.js:14, 37), which by jQuery's documented behaviour does not reach a listener added with the native `addEventListener` (main.js:2). On pages that load includes.js, `initializeMain` is then reached only through the fallback timer. `InitGate` holds either way, because its lemmas cover every order and mix of the two triggers.
  - The hamburger menu (`HamburgerMenu`).
  - The hero slider (`HeroCarousel`).
  - The category gallery with its buttons, dropdown and back button (`MainGallery`).
  - Its lazy image loading, shared with mainold.js (`LazyLoad`).
- **gallery.js**: the Dutch portfolio page (`CategoryGallery`). `renderCategory` chooses between cards, a single subcategory's images, or the category's own images. `currentCategory` is what the back button returns to, and a card click renders after a 500 ms delay.
- **includes.js**: the partial loader's completion counter and its single `includesLoaded` trigger (`Includes`).
- **mainold.js**: the older builder of nav links, sections, anchors and the three-image 'weddings' preview (`LegacyGalleries`), plus the one-shot lazy loader (`LazyLoad`).
- **portfolio.js**: the 'photo-gallery' section filter and the section-to-grid mapping (`Portfolio`).

Shared values live in `common.dfy`:
- `Text` holds three JavaScript conversions the scripts rely on:
  - `s || d` falls back on an absent or empty string.
  - `String(undefined)` is `"undefined"`.
  - Capitalising touches only the first character (`Label`).
- `Catalog` holds the category map of `images.json` and `portfolio.json`. It is an ordered list of key/value entries in `Object.keys` order.

Each stateful script is modelled in two layers:
- A pure view datatype and pure transition functions, about which the lemmas are proved.
- A class holding the script's closure variables and DOM state. Each handler is a method whose postcondition ties the new state to the transition function. The `forEach` loops are methods with loop invariants.

Timers, events and fetch completions are discrete steps. An event the source would handle is a method call or an element of an event sequence.

## Model

| member | source | states |
|---|---|---|
| InitGate.Fire | assets/js/main.js:2-12 | Either entry leaves the flag set, and enters the body only if the flag was clear. |
| InitGate.RunsOnce | assets/js/main.js:2-14 | For any sequence of `includesLoaded` events and timer ticks, in any order, the body runs exactly once on the first trigger and never again. |
| InitGate.AtMostOnceFromStart | assets/js/main.js:2-14 | From page load, `initializeMain` runs at most once, and it runs exactly when some trigger arrived. |
| InitGate.Page.OnIncludesLoaded | assets/js/main.js:2-6 | The event listener returns early when already initialised and otherwise runs the body. |
| InitGate.Page.OnFallbackTimer | assets/js/main.js:7-12 | The 1000 ms callback runs the body only when not yet initialised. |
| InitGate.Page.InitializeMain | assets/js/main.js:13-14 | The body's first statement sets `isMainInitialized`. |
| HamburgerMenu.Toggle | assets/js/main.js:79-83 | `toggleMenu` flips nav and overlay, and sets the icon from the new nav state ('✕' when open, '☰' when closed) whatever icon it started with, so a consistent menu stays consistent. |
| HamburgerMenu.ToggleTwice | assets/js/main.js:79-83 | Toggling twice restores the menu. |
| HamburgerMenu.AlwaysConsistent | assets/js/main.js:79-114 | No sequence of hamburger, link, overlay and document clicks can separate nav from overlay or show the wrong icon. |
| HamburgerMenu.ClosePathsClose | assets/js/main.js:90-114 | Each close path leaves both inactive with '☰': the link timer, a click on the overlay itself, and an outside click on an open menu. |
| HamburgerMenu.OutsideClickCloses | assets/js/main.js:108-114 | A document click changes the menu exactly when the menu is open and the target is outside both nav and hamburger. |
| HamburgerMenu.NavMenu.ToggleMenu | assets/js/main.js:79-83 | The DOM flags change as `Toggle` says. |
| HamburgerMenu.NavMenu.OnHamburgerClick | assets/js/main.js:85-88 | A hamburger click toggles the menu. |
| HamburgerMenu.NavMenu.OnLinkTimer | assets/js/main.js:90-98 | 100 ms after a nav link click, the menu is closed. |
| HamburgerMenu.NavMenu.OnOverlayClick | assets/js/main.js:100-106 | Only a click whose target is the overlay itself closes the menu. |
| HamburgerMenu.NavMenu.OnDocumentClick | assets/js/main.js:108-114 | An outside click closes an open menu; any other click changes nothing. |
| HeroCarousel.Next | assets/js/main.js:128-131 | The next index is i+1, or 0 after the last slide, so it stays within the slides. With no slides, `% 0` gives NaN. |
| HeroCarousel.AdvanceFrom | assets/js/main.js:128-131 | Within one round, k advances from slide i land on slide i+k, wrapping to the start. |
| HeroCarousel.StaysInRange | assets/js/main.js:128-131 | However many advances, the index stays a valid slide position. |
| HeroCarousel.Cycle | assets/js/main.js:128-131 | After n advances the carousel is back at its starting slide. |
| HeroCarousel.VisitsAll | assets/js/main.js:128-131 | Every slide is shown within n advances from any start. |
| HeroCarousel.ExactlyOneActive | assets/js/main.js:122-126 | `showHeroSlide(k)` leaves exactly one slide active, slide k; a NaN index leaves none active. |
| HeroCarousel.BuildSlides | assets/js/main.js:154-176 | One slide per JSON entry, in order, with `data-src` set to the url and `alt` set to alt or ''. |
| HeroCarousel.Slider.Load | assets/js/main.js:150-176 | The slides are rebuilt in order, only slide 0 is active, and `currentHeroIndex` is not reset. |
| HeroCarousel.Slider.ShowSlide | assets/js/main.js:122-126 | In place on the array of flags, slide j becomes active iff j is the index. |
| HeroCarousel.Slider.NextSlide | assets/js/main.js:128-131 | The index advances as `Next` says, and the active flags follow it. |
| MainGallery.RenderCases | assets/js/main.js:218-272 | `renderGallery` renders nothing for an absent key, and one anchor per image for an array (in order, lightbox group = key). For an object it renders one card per subcategory when there are subcategories, else nothing. |
| MainGallery.ClickSyncs | assets/js/main.js:306-313 | After a button click, exactly that button is active, exactly its option is selected, the dropdown holds its key, back is hidden and its category is rendered. |
| MainGallery.ChangeIsClick | assets/js/main.js:337-345 | Choosing a category in the dropdown gives the same view as clicking its button. |
| MainGallery.BackReturns | assets/js/main.js:348-351 | After opening a card, back re-renders the active button's category. |
| MainGallery.ClickOpenBack | assets/js/main.js:348-351 | Clicking a button, opening any card and pressing back restores exactly the view the click produced. |
| MainGallery.LoadSelectsFirst | assets/js/main.js:324-335 | On load, the first category is marked on its button and its option, and is rendered, exactly as a click on it would do. |
| MainGallery.BuildThumbs | assets/js/main.js:231-244 | One anchor per image, in order. Each anchor has href = url and the given lightbox group, and its img has the placeholder src, `data-src` = url and alt = title or ''. |
| MainGallery.BuildCards | assets/js/main.js:252-269 | One card per subcategory, in order, with background `url(heroImage)` and that subcategory's images. |
| MainGallery.BuildControls | assets/js/main.js:296-322 | One button and one option per key, in key order, both labelled with the title, else the capitalised key. |
| MainGallery.ClearAll | assets/js/main.js:307 | Removing `active` from every button leaves none active. |
| MainGallery.Page.RenderGallery | assets/js/main.js:218-275 | The container and back button change as `Render` says. |
| MainGallery.Page.RenderSubGallery | assets/js/main.js:191-215 | Back is shown and the images are rendered under the 'sub-gallery' group. |
| MainGallery.Page.Load | assets/js/main.js:292-335 | Buttons and options are built from the data, and the first category is selected and rendered. |
| MainGallery.Page.OpenCard | assets/js/main.js:264-266 | A card click renders that subcategory's images. |
| MainGallery.Page.ClickButton | assets/js/main.js:306-313 | The page ends in the view `Click` gives. |
| MainGallery.Page.SelectOption | assets/js/main.js:311-312 | Exactly the first option holding the key becomes selected. |
| MainGallery.Page.ChangeSelect | assets/js/main.js:337-345 | The page ends in the view `Change` gives. |
| MainGallery.Page.BackClick | assets/js/main.js:348-351 | Back re-renders the first active button's category, and does nothing when no button is active. |
| Text.Label | assets/js/main.js:299 | The label is the category's title when it is non-empty. Otherwise it is the key with only its first character upper-cased. |
| Catalog.Lookup | assets/js/main.js:222-224 | The lookup finds nothing exactly when no entry has the key, and a found category belongs to some entry with that key. |
| Catalog.LookupAt | assets/js/main.js:224 | With distinct keys, looking up an entry's key yields that entry's category. |
| Catalog.IndexOf | assets/js/main.js:340 | `querySelector` picks the first element whose key matches, or none. |
| Catalog.FirstTrue | assets/js/main.js:349 | `querySelector('.gallery-nav button.active')` picks the first active button, or none. |
| CategoryGallery.Retitle | assets/js/gallery.js:31-34 | `updateTitles` sets the heading to the title, and the document title to the title followed by " \| Dieter Vanlangenaker Photography". |
| CategoryGallery.AbsentKeyUnchanged | assets/js/gallery.js:95-96 | An absent key changes nothing: not the container, the titles or `currentCategory`. |
| CategoryGallery.CurrentCategoryTracks | assets/js/gallery.js:95-98 | A present key becomes `currentCategory`, and opening a card or its delayed render leaves it alone. |
| CategoryGallery.RenderShapes | assets/js/gallery.js:99-114 | Several subcategories give cards under the label, with back hidden and nav shown. One subcategory gives its images under its title. None gives the category's own images with the heading unchanged, or else nothing. |
| CategoryGallery.BackReturnsToCards | assets/js/gallery.js:157-160 | After opening any card of a card view and letting its render run, back restores exactly that card view. |
| CategoryGallery.ChangeIsClick | assets/js/gallery.js:149-154 | Choosing a category in the dropdown gives the same view as clicking its button. Choosing 'all' only clears the buttons. |
| CategoryGallery.PendingRenderOutlivesNavigation | assets/js/gallery.js:80-87 | A card render still pending when a button is clicked replaces the clicked category's view when its timer fires. |
| CategoryGallery.BuildPictures | assets/js/gallery.js:49-54 | One img per image, in order, with src = url and alt = title or ''. |
| CategoryGallery.BuildCards | assets/js/gallery.js:67-90 | One card per subcategory, in order. Its background is `hero_image`, or the placeholder URL when that is missing. |
| CategoryGallery.BuildNav | assets/js/gallery.js:123-138 | The dropdown starts with the 'all' option, then has one option per key in key order. Each option mirrors the button with the same label. |
| CategoryGallery.MarkMatching | assets/js/gallery.js:151-152 | Exactly the buttons whose `data-category` equals the value are marked. |
| CategoryGallery.MatchingFlags | assets/js/gallery.js:151-152 | Flags marking exactly the matching keys are the dropdown's view of the buttons. |
| CategoryGallery.Page.UpdateTitles | assets/js/gallery.js:31-34 | Heading and document title change as `Retitle` says. |
| CategoryGallery.Page.RenderImageGallery | assets/js/gallery.js:43-56 | Back is shown, nav is hidden and the image grid is rendered. |
| CategoryGallery.Page.RenderSubcategories | assets/js/gallery.js:59-92 | Back is hidden, nav is shown, the titles are set and the cards are rendered. |
| CategoryGallery.Page.RenderCategory | assets/js/gallery.js:95-115 | The page changes as `CategoryView` says, and the buttons stay as they were. |
| CategoryGallery.Page.Load | assets/js/gallery.js:118-169 | Nav and dropdown are built, then the first category is activated and rendered. |
| CategoryGallery.Page.InstallNav | assets/js/gallery.js:123-138 | Buttons and options are built from the data, with no button active and the dropdown on 'all'. |
| CategoryGallery.Page.OpenCard | assets/js/gallery.js:80-87 | The loading indicator is shown and the card's render is queued. |
| CategoryGallery.Page.OnTimer | assets/js/gallery.js:83-86 | The oldest queued render sets the card's title and shows its images. |
| CategoryGallery.Page.ClickButton | assets/js/gallery.js:141-147 | Only the clicked button is active, the dropdown holds its key, and its category is rendered. |
| CategoryGallery.Page.ChangeSelect | assets/js/gallery.js:149-154 | The matching buttons become active and the category is rendered. |
| CategoryGallery.Page.BackClick | assets/js/gallery.js:157-160 | `renderCategory(currentCategory)` runs, and reads key "null" before any render. |
| Includes.CountsCompletions | assets/js/includes.js:25-39 | After k completions, in any order and with any mix of success and error, the counter is k (never above the total). The event has fired once if k is the total, and not at all before. |
| Includes.CompletionCounts | assets/js/includes.js:32-38 | Each completion raises the counter by exactly one and fires the event exactly when the counter reaches the total. The status makes no difference. |
| Includes.NoIncludes | assets/js/includes.js:12-16 | With no `[data-include]` elements the event fires at once, exactly once, and nothing is loaded. |
| Includes.IssueLoads | assets/js/includes.js:19-25 | One load per element, in document order, each from its own `data-include` path. |
| Includes.IncludeLoader.LoadIncludes | assets/js/includes.js:7-40 | The counter starts at zero and one request is issued per element; with none, the event fires at once. |
| Includes.IncludeLoader.OnComplete | assets/js/includes.js:25-39 | A completion advances the loader as `Complete` says. |
| LazyLoad.Candidates | assets/js/main.js:33-35 | A scan finds exactly the images that carry `data-src`. |
| LazyLoad.LoadsWhenSeen | assets/js/main.js:24-31 | A watched image seen intersecting gets its `data-src` as `src` and is unobserved. Nothing else changes. |
| LazyLoad.OneShot | assets/js/mainold.js:4-11 | Once an image has been seen intersecting, a later report about it changes nothing. |
| LazyLoad.NotIntersectingIgnored | assets/js/mainold.js:6-9 | A report that an image is not intersecting changes nothing. |
| LazyLoad.ScanIdempotent | assets/js/mainold.js:84-85 | Re-scanning watches every image with a `data-src`, and scanning twice is the same as once. |
| LazyLoad.StaysSane | assets/js/mainold.js:3-12 | Through any scans and callbacks, each image shows its original `src` or its own `data-src`, and only images with a `data-src` are watched. |
| LazyLoad.LoadedStaysLoaded | assets/js/mainold.js:84-85 | Once an image shows its `data-src`, any later scans and callbacks over the same image list never change it. |
| LazyLoad.Observer.LazyLoadImages | assets/js/main.js:33-36 | The scan loop observes every image with a `data-src`. |
| LazyLoad.Observer.OnEntries | assets/js/main.js:24-31 | The callback loop handles the entries in order, as `SeeAll` says. |
| LegacyGalleries.Shown | assets/js/mainold.js:36-38 | Every category kept for a link and a section has a non-empty image array. |
| LegacyGalleries.ShownExactly | assets/js/mainold.js:36-38 | A category gets a link and a section exactly when its value is a non-empty array. |
| LegacyGalleries.ShownKeepsOrder | assets/js/mainold.js:36-38 | The filter keeps key order: it distributes over concatenation. |
| LegacyGalleries.WeddingLinks | assets/js/mainold.js:70-77 | Every preview candidate is regrouped under lightbox group 'preview'. |
| LegacyGalleries.WeddingsOnly | assets/js/mainold.js:71 | With distinct keys, the preview candidates are the 'weddings' images in order, or none if that category is not listed. |
| LegacyGalleries.PreviewCapped | assets/js/mainold.js:70-77 | The preview grid never grows past three children. A grid with more is left alone. The copies are the first weddings images, grouped 'preview'. |
| LegacyGalleries.OrientationRule | assets/js/mainold.js:65 | 'landscape' exactly when both sides are known and width > height. A square is 'portrait'. |
| LegacyGalleries.TakeSnoc | assets/js/mainold.js:71 | Appending while below the cap is the same as taking the prefix of the longer list. |
| LegacyGalleries.BuildGalleries | assets/js/mainold.js:36-81 | Nav links are added whenever the link list exists. Sections, with anchors in order, are added only when the galleries container exists. Preview copies are added only when the preview grid exists too. |
| LegacyGalleries.AddCategory | assets/js/mainold.js:37-80 | One category extends links, sections and preview as the filtered specification says. |
| LegacyGalleries.BuildSection | assets/js/mainold.js:56-78 | One anchor per image, in order, with href = url, lightbox = key and an orientation class. A preview copy is made while the grid has room. |
| Portfolio.Rendered | assets/js/portfolio.js:16-17 | Every rendered section has type 'photo-gallery'. |
| Portfolio.RenderedExactly | assets/js/portfolio.js:16-17 | A section is rendered exactly when its type is 'photo-gallery'. |
| Portfolio.RenderedKeepsOrder | assets/js/portfolio.js:16-17 | Rendered sections keep input order: the filter distributes over concatenation. |
| Portfolio.PageShape | assets/js/portfolio.js:26-56 | Exactly one mobile rule per rendered section, in the same position, scoped to `#<id> .gallery-grid`. Each photo gives one item in order, linked to its `path`, grouped under the section id and showing `thumbnailPath`. |
| Portfolio.InitPortfolioPage | assets/js/portfolio.js:10-61 | The title and heading come from the page content. The rendered sections are appended, in order, after what the container already holds, with `repeat(gridColumns, 1fr)` grids, and the head gets one `mobileColumns` rule per section. |
| Portfolio.BuildItems | assets/js/portfolio.js:41-56 | One item per photo, in order: href = path, lightbox = section id, `data-title` = alt, src = thumbnailPath, alt = alt. |

## Left out

- Network and JSON I/O are not modelled: `fetch`, `$.getJSON`, jQuery `.load` and `response.json()`. The parsed data is a parameter. A failed load is a transition that never happens, and its console logging is dropped.
- Timers are not modelled as clock time: the 1000 ms fallback, the 1500 ms hero interval, the 100 ms link delay and the 500 ms card delay are discrete events. `setInterval` cancellation and `window.scrollTo` are not modelled.
- IntersectionObserver geometry is reduced to the target and its `isIntersecting` flag, and the observer delivers entries only for watched images.
- The hero slide's `objectFit`, chosen from the natural size after an asynchronous image decode (main.js:167-172), is not modelled. Neither are the inline styles of the slides.
- The scroll-driven header class (main.js:359-367) and `updatePageText` (main.js:42-65) are not modelled; they are DOM lookups with no state of their own.
- The about-carousel variables declared at main.js:19-21 are never used, so they are not modelled.
- The smooth scrolling of anchor links (mainold.js:14-23) is browser behaviour, and is not modelled.
- CSS, `innerHTML` templating and HTML escaping are not modelled: values are written as the strings the templates interpolate. URL resolution of `a.href` is also not modelled.
- Page and header elements that may be absent are treated as present: the hamburger, nav, slider, containers and back button. The menu's starting icon is a constructor parameter, because the header partial supplies it.
- jQuery's `.data('category')` turns numeric-looking strings into numbers, and that conversion is not modelled.
- `Object.keys` puts integer-like keys first. The catalog is given already in `Object.keys` order.
- Text.Upper: `toUpperCase` is modelled for ASCII letters only.
- JSON fields the model needs are present with the right type: a subcategory's title, description and images; a portfolio section's fields and `displaySettings`; the page content strings. Absent ones would print "undefined", be skipped by jQuery's `.text`, or throw.
- The `images.json` object form (`title`/`subcategories`) reaches mainold.js only to be skipped, because an object has no `length`.
- A card's hero field is `heroImage` in `images.json` (main.js) and `hero_image` in `portfolio.json` (gallery.js). Both are the one `hero` field of `Catalog.Sub`.
- The stray `e` after the last line of gallery.js (gallery.js:175) would throw a ReferenceError when the script loads. The model treats the script as if that token were absent.
- Of the two copies of the lazy loader, main.js:23-36 and mainold.js:3-12, the model has one module, `LazyLoad`. The two differ only in where the scan is called from.
- gallery.js renders a category with exactly one subcategory straight away, without a card. Some revisions of the site differ here. The model follows gallery.js:106-110, and main.js, which always renders cards.
- Category keys are assumed to contain no `"` and no `\`. The scripts put each key into an attribute selector without escaping it (main.js:312, 326, 329, 340, 344; gallery.js:152, 164). A key with `"` makes `querySelector` throw a SyntaxError: at main.js:326 the load handler then stops before marking a button, rendering, or installing the change and back listeners. A key with `\` makes the selector look for a different value, so main.js:312 finds no option and throws, and gallery.js:152 marks no button. `MainGallery.Loaded`, `MainGallery.Click`, `MainGallery.Change`, `MainGallery.Page.SelectOption`, `CategoryGallery.Change` and `CategoryGallery.Loaded` match keys by plain string equality, so they describe only keys without those characters.
- The back handler of main.js finds the active button with `.gallery-nav button.active` (main.js:349), while the click and change handlers clear and mark `#gallery-links button` (main.js:307, 339). The model treats these as the same buttons. That holds when the page's HTML puts the `#gallery-links` list inside the `.gallery-nav` element.
- LazyLoad.LoadedStaysLoaded: the image list is fixed for the whole run. Every image the page will ever hold is in `dataSrc` from the start, and the first scan already watches every one that has a `data-src`. Images appended between scans (mainold.js:36-85; main.js:154-178, 198-214, 231-274) and images removed when a grid or the slider is cleared (main.js:192, 219) are not modelled. So the re-scan "after new images are added" is covered only when the added images are read as part of that fixed list. `LazyLoad.StaysSane` rests on the same reading.
- The click handlers assume their elements were found. main.js:312 and :344 assume the option for the category exists, and main.js:349 assumes some button is active; a missing one throws, and `MainGallery.Back` then leaves the view unchanged.
