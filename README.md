# Portfolio site scripts, modelled in Dafny

This project models the client-side behaviour of Bilal Hussain's portfolio site.

- **Service worker (`sw.js`).** It seeds an offline cache on install and drops older caches on activate. On fetch, navigations are network-first and static assets are cache-first.
- **Testimonials carousel.** It works out how many cards fit and how many slides that gives. It keeps the buttons, the indicators and the five-second autoplay consistent with the current slide.
- **Main page script.** This covers:
  - the built-in fallback data;
  - the skills filter;
  - the navbar's scroll state;
  - the hCaptcha sitekey check;
  - the step-by-step contact chat, which validates an email and a numbered choice and then posts the form;
  - the theme toggle.
- **Enhanced page script.** This covers:
  - the hero's typing animation;
  - the enhanced navbar and active-section highlighting;
  - required-field validation of the enhanced form;
  - the theme system.
- **Blog page.** It filters posts by search term and category and derives each card. It chooses between the not-found view and the article, and builds the share links.
- **Project detail page.** It reads the project id from the path, looks the project up, and shows one of three errors or the project.

## Modelling approach

- Code that computes a value is written as Dafny functions and lemmas.
- Objects whose state changes are classes. Each such method is proved against a specification function of the old state: `View() == Step(old(View()))`.
- Loops stay loops. Examples are `caches.match` over the stores, deleting stale caches, filling the blog grid, the indicator toggling, the active-section scan and validating every form field.
- Whatever the browser or network supplies is an explicit parameter: a fetch result, a stored preference, a scroll offset, a container width, a captcha token, or `encodeURIComponent` (an uninterpreted function).
- Timers are not modelled as time. Each timer callback (autoplay tick, deferred question, typing step) is a method the caller invokes.

Modules:
- `Wrappers`, `Seqs` and `Strings` model the JavaScript library behaviour the scripts rely on: `filter`, `find`, `trim`, `toLowerCase`, `includes`, `replace`, `join`, `parseInt` and number-to-string.
- `Content` holds the site's data records.
- `ServiceWorker`, `Testimonials`, `MainPage`, `EnhancedMain`, `Blog` and `ProjectDetail` follow the source files. `Navbar` and `Theme` hold the navbar and theme logic the two page scripts share.

## Model

| member | source | states |
|---|---|---|
| ServiceWorker.FirstMatch | sw.js:42 | `caches.match` over ordered stores finds a response iff some store holds the key; the one it returns comes from the first such store |
| ServiceWorker.MatchAll | sw.js:50 | matching over all stores succeeds exactly when some store holds the key |
| ServiceWorker.Opened | sw.js:3 | opening an existing store changes nothing; a new name is appended, its store empty; storage stays well formed |
| ServiceWorker.WithEntry | sw.js:40 | `cache.put` replaces only the entry under the key in the named store; every other store is unchanged |
| ServiceWorker.RemoveName | sw.js:21 | deleting a name keeps exactly the other names, distinct and as a sublist of the old list (in their order) |
| ServiceWorker.Without | sw.js:21 | `caches.delete` removes exactly that store |
| ServiceWorker.PutAll | sw.js:4-12 | after seeding, the store holds the old entries plus every URL, each with its network response; other entries are kept |
| ServiceWorker.Install | sw.js:1-16 | install keeps storage well formed; once `caches.open` succeeds the current store is present, and a rejected open fails the install and leaves storage unchanged |
| ServiceWorker.Activate | sw.js:18-24 | activation leaves well-formed storage |
| ServiceWorker.WrittenBack | sw.js:38-41 | the best-effort copy of a response into the current store keeps storage well formed, whichever way it fails |
| ServiceWorker.Fetch | sw.js:26-57 | the fetch handler keeps storage well formed |
| ServiceWorker.NonGetUntouched | sw.js:30-33 | a non-GET request is not intercepted and causes no fetch, read or write |
| ServiceWorker.NavigationBeforeAssetRule | sw.js:35-48 | a GET navigation is handled network-first even on an asset path, and the page always gets an answer |
| ServiceWorker.AnswerIgnoresWrite | sw.js:38-54 | the answer and the requests made do not depend on whether the write-back succeeds |
| ServiceWorker.NavigationOnline | sw.js:36-41 | online, a navigation gets the network response; a successful put stores it under the request and keeps every other entry of the current store, adding no other key; a failed put or a 206 changes no store; other stores never change |
| ServiceWorker.NavigationOffline | sw.js:42 | offline, a navigation gets its cached copy, else the cached `/index.html`, else `undefined`, and storage is unchanged |
| ServiceWorker.StaticAssetHit | sw.js:48-50 | a cached static asset is answered from the cache without a network fetch |
| ServiceWorker.MatchAfterPut | sw.js:50-52 | once an uncached key is put into the current store, matching returns exactly that response |
| ServiceWorker.StaticAssetMiss | sw.js:48-55 | an uncached asset is fetched and returned, and becomes matchable after a successful put; offline, the page gets the rejection |
| ServiceWorker.OtherGetIgnored | sw.js:47-57 | any other GET is not intercepted and touches nothing |
| ServiceWorker.WarmCacheRepeat | sw.js:48-55 | repeating a served asset request answers the same response from the cache alone |
| ServiceWorker.InstallSeeds | sw.js:1-16 | once the store opens, install seeds all eight URLs with their responses, or adds nothing when any fails; other stores are untouched |
| ServiceWorker.ActivateKeepsOnlyCurrent | sw.js:18-24 | after activation only the current store remains, with its entries, and matching answers from it alone |
| ServiceWorker.InstallThenActivate | sw.js:1-24 | after a successful open, install then activate leaves exactly one store, the current one; a rejected open fails the install, so no activation follows it (the storage the install leaves is then the old one) |
| ServiceWorker.CacheStorage.constructor | sw.js:3 | cache storage starts from any well-formed state |
| ServiceWorker.CacheStorage.Keys | sw.js:20 | `caches.keys()` lists the store names in creation order |
| ServiceWorker.CacheStorage.Open | sw.js:3 | the new state is `Opened` of the old one |
| ServiceWorker.CacheStorage.Put | sw.js:40 | the new state is `WithEntry` of the old one |
| ServiceWorker.CacheStorage.Delete | sw.js:21 | the new state is `Without` of the old one |
| ServiceWorker.CacheStorage.AddAll | sw.js:4-13 | succeeds iff every URL fetched with an ok, non-206 status; it then stores them all, otherwise nothing |
| ServiceWorker.CacheStorage.Match | sw.js:50 | the loop over the stores returns `MatchAll` of the current storage |
| ServiceWorker.OnInstall | sw.js:1-16 | the install listener leaves `Install` of the old storage, for a successful or a rejected open |
| ServiceWorker.IsActivated | sw.js:18-24 | any well-formed storage holding just the current store's entries is `Activate` of the old one |
| ServiceWorker.Swept | sw.js:20-22 | deleting every name other than the current one yields `Activate` of the old storage |
| ServiceWorker.Stale | sw.js:21 | `keys.filter(k => k !== CACHE_NAME)` keeps exactly the other names |
| ServiceWorker.DeleteAll | sw.js:21-22 | deleting each listed name removes exactly those stores |
| ServiceWorker.OnActivate | sw.js:18-24 | the activate listener leaves `Activate` of the old storage |
| ServiceWorker.WriteBack | sw.js:39-40 | the write-back leaves `WrittenBack` of the old storage |
| ServiceWorker.OnFetch | sw.js:26-57 | the fetch listener's answer, requests and new storage are those of `Fetch` |
| Testimonials.ContainerWidth | assets/js/testimonials.js:56 | the width is the offset width if non-zero, else the box width if non-zero, else 800; never zero |
| Testimonials.CardsPerView | assets/js/testimonials.js:55-58 | at least one card; more than one only when exactly that many 320-pixel cards fit |
| Testimonials.TotalSlides | assets/js/testimonials.js:61 | at least one slide; with enough cards, the last slide shows the last card |
| Testimonials.TrackFor | assets/js/testimonials.js:35-41 | the track shows the empty message exactly when there are no testimonials |
| Testimonials.Carousel.constructor | assets/js/testimonials.js:54-94 | set-up starts on slide 0 with the computed per-view and slide counts and the badge text |
| Testimonials.Carousel.UpdateControls | assets/js/testimonials.js:96-109 | prev disabled iff on the first slide, next iff on the last; exactly the current indicator active; offset index*320 |
| Testimonials.Carousel.Prev | assets/js/testimonials.js:114-119 | steps back one slide, or does nothing on the first |
| Testimonials.Carousel.Next | assets/js/testimonials.js:120-125 | steps forward one slide, or does nothing on the last |
| Testimonials.Carousel.AutoplayTick | assets/js/testimonials.js:128-136 | the autoplay moves to the next slide, modulo the slide count |
| Testimonials.Section.constructor | assets/js/testimonials.js:29-32 | the section starts with an empty track and no injected controls |
| Testimonials.Section.Update | assets/js/testimonials.js:29-157 | re-rendering shows the new track and never more than one nav bar, indicator group or badge |
| Testimonials.Tick | assets/js/testimonials.js:128-136 | repeated autoplay stays within the slides |
| Testimonials.AutoplayPeriod | assets/js/testimonials.js:128-136 | after `k` ticks the slide is `(start + k) mod total`, so autoplay visits every slide and returns |
| Navbar.ScrollNavbar.constructor | assets/js/main.js:261-262 | the navbar starts neither scrolled nor hidden, remembering the load-time offset |
| Navbar.ScrollNavbar.OnScroll | assets/js/main.js:264-281 | scrolled iff past 50 pixels; hidden iff moving down past the hide threshold; remembers the offset |
| Theme.Toggled | assets/js/main.js:875 | dark becomes light, anything else becomes dark |
| Theme.ToggleTwice | assets/js/main.js:875 | toggling twice restores dark or light, and only those |
| Theme.Saved | assets/js/main.js:858 | a missing or empty stored theme reads as dark; any other stored value is kept as is |
| MainPage.GetFallbackData | assets/js/main.js:67-189 | each of the four known file names gives exactly its own built-in table (5, 20, 3 and 5 entries, equal to the constants); any other name gives nothing |
| MainPage.FallbackProjectIds | assets/js/main.js:117-149 | the fallback projects are numbered 1 to 3 and have no source link |
| MainPage.FallbackSkillCategories | assets/js/main.js:96-116 | every fallback skill is in one of the four filter categories, at a level from 0 to 100 |
| MainPage.FilterSkills | assets/js/main.js:412-414 | `all` shows every skill; any other filter shows exactly that category's skills, in order |
| MainPage.Sitekey | assets/js/main.js:614-618 | the sitekey is the trimmed attribute, or none when that is empty |
| MainPage.SitekeyIsPattern | assets/js/main.js:620-627 | a sitekey is valid exactly when the trimmed attribute has 20 or more characters from `[A-Za-z0-9_-]`; the placeholder checks never decide |
| MainPage.KeyIndex | assets/js/main.js:651 | the index of a field in the form data, or none iff the field is absent |
| MainPage.Lookup | assets/js/main.js:698 | `formData[key]` is absent iff the key was never set |
| MainPage.Assign | assets/js/main.js:758 | setting a key keeps the key order; it replaces only that key's value, or appends it when new |
| MainPage.LookupAssign | assets/js/main.js:758 | reading a key just set gives the value set |
| MainPage.EmailParts | assets/js/main.js:775 | an accepted email is `local@domain.top`, each part non-empty and without whitespace |
| MainPage.EmailOfParts | assets/js/main.js:775 | every string of that shape is accepted |
| MainPage.Choice | assets/js/main.js:784-785 | an input picks option `k` iff `parseInt` reads it as `k + 1`, within the option count |
| MainPage.ChoiceOfListedNumber | assets/js/main.js:705 | typing the number listed beside an option picks that option |
| MainPage.Numbered | assets/js/main.js:705 | option `i` is listed as `i+1. <option>` |
| MainPage.Submit | assets/js/main.js:719-733 | with a valid sitekey and no token nothing is posted; otherwise the body is `form-name=contact`, the answers in order, then the token when a sitekey is valid |
| MainPage.Ask | assets/js/main.js:694-717 | asking advances the step counter and leaves the answers and the input alone; a question step appends its question with `{name}` filled (and the numbered options on the select step); the step after the last question submits: a posted body is appended to the posted list, the thanks or sorry message is shown and input is disabled, while a missing captcha only shows the captcha prompt; any later step only disables input |
| MainPage.Send | assets/js/main.js:764-801 | sending never changes the step, the disabled state or what was posted |
| MainPage.TimerFired | assets/js/main.js:761 | a scheduled question consumes one pending timer |
| MainPage.Opening | assets/js/main.js:694-700 | the chat opens by asking the first question, with `{name}` empty |
| MainPage.SendKeepsValid | assets/js/main.js:764-801 | every stored answer stays non-empty, belongs to a step and passed its check |
| MainPage.AcceptKeepsValid | assets/js/main.js:754-762 | storing a checked answer keeps the form data valid |
| MainPage.TimerKeepsValid | assets/js/main.js:694-717 | the deferred question keeps the form data valid |
| MainPage.SendIgnored | assets/js/main.js:765-769 | blank input, or no question pending, changes nothing |
| MainPage.TextStep | assets/js/main.js:794-797 | on the name and message steps, any non-blank input is stored trimmed under `name` or `message`, echoed, and the next question is scheduled |
| MainPage.EmailStep | assets/js/main.js:773-780 | an email is stored trimmed iff it passes the pattern; otherwise only the warning is shown and the input is kept |
| MainPage.SelectStep | assets/js/main.js:782-793 | a listed number stores that option's text; anything else warns and clears the input |
| MainPage.PostedBodies | assets/js/main.js:719-740 | every posted body starts with `form-name=contact` |
| MainPage.ChatForm.constructor | assets/js/main.js:606-801 | set-up ends having asked the first question |
| MainPage.ChatForm.Type | assets/js/main.js:765 | typing changes only the input box |
| MainPage.ChatForm.AskNextQuestion | assets/js/main.js:694-717 | the new state is `Ask` of the old one, so the question, submission and disabling cases of `Ask` hold of the form |
| MainPage.ChatForm.ProcessUserInput | assets/js/main.js:754-762 | the new state is `Accept` of the old one |
| MainPage.ChatForm.HandleSend | assets/js/main.js:764-801 | the new state is `Send` of the old one, and stays valid |
| MainPage.ChatForm.TimerFires | assets/js/main.js:761 | the new state is `TimerFired` of the old one, and stays valid |
| MainPage.SetupNavigation | assets/js/main.js:260-282 | the main navbar hides past 100 pixels |
| MainPage.ThemeIcon | assets/js/main.js:861-868 | the sun icon shows exactly for the dark theme |
| MainPage.ThemeToggle.constructor | assets/js/main.js:851-871 | the body takes the saved theme, and the icon and `aria-pressed` agree with it |
| MainPage.ThemeToggle.Click | assets/js/main.js:873-881 | a click flips the theme, stores it, and keeps the icon and `aria-pressed` in agreement |
| EnhancedMain.Step | assets/js/enhanced-main.js:770-793 | one typing step, as given by `type()` |
| EnhancedMain.StepKeepsValid | assets/js/enhanced-main.js:770-793 | every step keeps the cursor inside the text and shows exactly its first `charIndex` characters |
| EnhancedMain.StepDelays | assets/js/enhanced-main.js:781-790 | 2000 ms iff typing just completed the text; 500 ms iff deleting emptied it, which moves to the next text; otherwise 100 ms typing, 50 ms deleting |
| EnhancedMain.Steps | assets/js/enhanced-main.js:792 | any number of steps keeps the animation valid |
| EnhancedMain.StepsAdd | assets/js/enhanced-main.js:792 | `a` steps then `b` steps are `a + b` steps |
| EnhancedMain.TypingPhase | assets/js/enhanced-main.js:776-786 | typing from any position reaches the full text, then turns to deleting |
| EnhancedMain.DeletingPhase | assets/js/enhanced-main.js:773-790 | deleting from any position empties the text, then moves to the next one |
| EnhancedMain.Cycle | assets/js/enhanced-main.js:761-796 | twice a text's length in steps types and deletes it and starts the next text, cycling through all four |
| EnhancedMain.Typewriter.constructor | assets/js/enhanced-main.js:761-795 | the animation starts with its first step already taken |
| EnhancedMain.Typewriter.Type | assets/js/enhanced-main.js:770-793 | the new state, shown text and delay are those of `Step` |
| EnhancedMain.SetupNavbar | assets/js/enhanced-main.js:66-103 | the enhanced navbar hides past 200 pixels |
| EnhancedMain.ActiveSection | assets/js/enhanced-main.js:109-116 | the active section is the last one whose top is within 100 pixels, or none |
| EnhancedMain.HighlightActiveSection | assets/js/enhanced-main.js:105-125 | the scan finds `ActiveSection`; exactly the links to `#<active>` are marked active |
| EnhancedMain.Validated | assets/js/enhanced-main.js:309-327 | the error class is set iff the field is invalid; an invalid field keeps its messages, or gets the validation message if it had none; a valid one loses its message |
| EnhancedMain.ValidatedIdempotent | assets/js/enhanced-main.js:309-327 | validating twice is validating once |
| EnhancedMain.EnhancedForm.constructor | assets/js/enhanced-main.js:300-307 | the form holds its required fields |
| EnhancedMain.EnhancedForm.Blur | assets/js/enhanced-main.js:302-305 | blur validates exactly that field |
| EnhancedMain.EnhancedForm.HandleSubmit | assets/js/enhanced-main.js:329-348 | every field is validated; the form is sent iff all fields are valid |
| EnhancedMain.IconFor | assets/js/enhanced-main.js:697 | sun exactly for dark, moon otherwise |
| EnhancedMain.ThemeSystem.AsWritten | assets/js/enhanced-main.js:658-672 | the theme is applied before the button exists, so the button starts with the moon icon whatever the theme |
| EnhancedMain.ThemeSystem.constructor | assets/js/enhanced-main.js:658-700 | with the button created first, the icon agrees with the saved theme from the start |
| EnhancedMain.ThemeSystem.ToggleTheme | assets/js/enhanced-main.js:686-690 | toggling flips the theme, stores it, and the icon follows |
| EnhancedMain.InitialIconDisagrees | assets/js/enhanced-main.js:664-675 | with nothing stored the page is dark, yet the new button shows the light-theme icon |
| Blog.FilterPosts | assets/js/blog.js:74-83 | the filtered list keeps post order, a post is kept iff its title or summary contains the term (ignoring case) and the category is empty or equal, and a kept post keeps all its copies |
| Blog.EmptyFilterKeepsAll | assets/js/blog.js:78-83 | an empty term with no category keeps every post |
| Blog.CategoryOnly | assets/js/blog.js:81 | an empty term with a category keeps exactly that category's posts |
| Blog.Hashtags | assets/js/blog.js:122-126 | one chip per tag, in order, each `#` + tag |
| Blog.HashtagsUntag | assets/js/blog.js:125 | dropping the `#` from a chip gives back the tag |
| Blog.CardReadsBack | assets/js/blog.js:111-130 | the card links to `/blog.html?slug=` + the encoded slug; its reading time and delay read back as the minutes and index*100 |
| Blog.RenderPost | assets/js/blog.js:138-207 | an unknown slug gives the not-found title and no markdown fetch; a known slug titles the page after the first matching post and fetches its markdown; tags and cover blocks show only when set |
| Blog.ShareTitle | assets/js/blog.js:270-271 | the share title is that of the first post with the page's slug when that title is non-empty, and `Check out this blog post` otherwise or when no post has the slug |
| Blog.ShareUrl | assets/js/blog.js:269-279 | Twitter's address carries the encoded title and page address; LinkedIn's only the page address; other platforms get none |
| Blog.BlogPage.constructor | assets/js/blog.js:52 | the page starts with no posts and an empty grid |
| Blog.BlogPage.FetchPosts | assets/js/blog.js:54-72 | a successful load replaces the posts; a failure keeps them and shows the failure panel |
| Blog.BlogPage.RenderList | assets/js/blog.js:88-136 | the grid holds each post's card, in order; the empty state shows iff there are no posts |
| Blog.BlogPage.OnFilter | assets/js/blog.js:74-86 | the grid shows the filtered posts' cards; the empty state shows iff no post matches; the posts, the load-failure panel and the post view do not change |
| Blog.BlogPage.ShowPost | assets/js/blog.js:138-141 | posts are reloaded only when none are loaded, and a failed reload shows the load-failure panel; the view is `RenderPost` of the posts; the grid and empty state do not change |
| Blog.ListPage | assets/js/blog.js:295-300 | the index page lists every loaded post, and shows the empty state iff none loaded |
| ProjectDetail.TrailingDigits | assets/js/project-detail.js:7 | the count of decimal digits at the end of a string, bounded by a non-digit |
| ProjectDetail.TrailingDigitsOf | assets/js/project-detail.js:7 | digits after a non-digit are exactly the trailing run |
| ProjectDetail.CaptureId | assets/js/project-detail.js:7 | returns a group iff the path matches `/\/projects\/(\d+)\.html$/`, and then the only group that matches |
| ProjectDetail.CaptureUnique | assets/js/project-detail.js:7 | whatever precedes `/projects/`, the captured group is the digit run before `.html` |
| ProjectDetail.ProjectId | assets/js/project-detail.js:7-9 | an id exists iff the path matches with a non-zero value; it is that value, in base 10 |
| ProjectDetail.ParseDigits | assets/js/project-detail.js:8 | `parseInt(d, 10)` of a digit run is its value |
| ProjectDetail.ProjectIdOfPage | assets/js/project-detail.js:7-9 | the page of project `n` under any directory reads back as `n`, and project 0 as invalid |
| ProjectDetail.ZerosInvalid | assets/js/project-detail.js:8-9 | an all-zero id, such as `/projects/00.html`, is invalid |
| ProjectDetail.ErrorMessage | assets/js/project-detail.js:10-26 | an error text is shown iff the project is not: `Invalid project page.`, `Failed to load project data.` or `Project not found.` for the three failures |
| ProjectDetail.SourceLink | assets/js/project-detail.js:49 | the Source Code link shows iff the GitHub address is non-empty and not `#` |
| ProjectDetail.Render | assets/js/project-detail.js:1-58 | invalid iff there is no id; load failure iff the data did not load; not found iff no project has the id; otherwise the first such project, its image prefixed with `/`, technologies space-joined |
| ProjectDetail.JoinLayout | assets/js/project-detail.js:42 | the technologies line holds each name at its offset, a single space after every name but the last, and has exactly that length |

## Left out

- Markup and styling are left out: HTML templates, CSS classes other than the flags modelled, AOS, Prism, the custom cursor, particles, tilt effects, modals, the mobile menu, back-to-top and the preloader. `script.js`, the Tailwind configuration and the rest of the two page scripts are not part of this model.
- Time is not modelled. The autoplay interval, the one-second chat delay, the typing timeouts and throttling become explicit steps the caller takes. The 800 ms options message is folded into the question that precedes it. The double `requestAnimationFrame` deferral of the carousel set-up is collapsed into the set-up call.
- Promise interleaving is not modelled. Each handler runs to completion; `event.waitUntil` and the order in which `cache.put` settles relative to later requests are not modelled. Loading hCaptcha is folded into `SubmitEnv`: the sitekey attribute and the token at submission time.
- Network and browser input is taken as parameters: the result of each fetch, parsed JSON, `localStorage`, scroll offsets, bounding boxes and field validity. A failed JSON parse is treated like a failed request.
- ServiceWorker: cache keys are origin, path and query. The URL fragment, `Vary` and other request fields that `cache.match` may consider are not modelled. The eight seed URLs are resolved against one origin.
- Strings.ToLower: covers ASCII letters only. Unicode case mapping is not modelled.
- Strings.ParseInt: reads digits as an unbounded integer. JavaScript's floating-point rounding of very long digit runs is not modelled.
- Blog.Post.readingTime: a natural number. Fractional reading times are not modelled. Dates are kept as given and not formatted into a locale string.
- The chat's `{name}` substitution uses the name stored. JavaScript `$` replacement patterns in a typed name are not interpreted.
- `getFallbackData` with a name such as `constructor`, which would reach the object's prototype, is not modelled; unknown names give no data.
- Pausing autoplay on hover is not modelled. The extra intervals a second set-up would leave running are not modelled either.
- EnhancedMain.Field: each field has its own parent node. Fields sharing a parent, which would share one error message, are not modelled.
- EnhancedMain.ThemeSystem: assumes the created button is the page's first `.theme-toggle` element and is attached to the navbar. Without a `.nav-container` the icon is never updated.
- The blog header's scroll-direction classes and the mobile menu buttons are not modelled.
- A contact form POST that reaches the server counts as sent even when the server answers with an error status, as the script has it. The form is disabled afterwards either way.
- Elements missing from the page, which make the scripts return early, are not modelled; every element is assumed present.
- ProjectDetail: project ids are compared as integers. A string id in the data never equals the parsed number, so such a project is not found.

## Findings

| source | as written | input that shows it | evidently intended | confidence | as-written member | corrected member |
|---|---|---|---|---|---|---|
| assets/js/enhanced-main.js:664-672 | `init()` calls `applyTheme` before `createThemeToggle`, so the new button keeps its `fa-moon` markup | nothing stored, so the page starts dark, yet the newly created button shows the moon; only this state before the first click disagrees, since the first click sets the icon along with the theme | the icon reflects the current theme from the start: sun when dark | medium; not executed | EnhancedMain.ThemeSystem.AsWritten, EnhancedMain.InitialIconDisagrees | EnhancedMain.ThemeSystem.constructor |
