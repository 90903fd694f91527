# Gear Shift Showcase: the interactive state of the page, in Dafny

The site is a one-page shop front for an automotive parts retailer. Most of
it is static content and entrance animations: fixed arrays drawn as markup,
plus animation triggers. Five components hold view state. This project
models four of them and proves how their event handlers change that state.
The fifth, the hero banner, holds only a one-shot `audioPlayed` latch
around a foreign sound call; it is listed under "## Left out".

- **Testimonials carousel** (`testimonials.dfy`, module `Testimonials`).
  A `Carousel` class holds the four testimonials and `currentSlide`.
  - The right arrow and each autoplay tick move to `(i + 1) % n`.
  - The left arrow moves to `(i - 1 + n) % n`.
  - An indicator dot jumps to its own position.
  - A rating is drawn as five filled-or-empty stars.
- **Parts gallery** (`gallery.dfy`, module `Gallery`). There are six category
  buttons and eight pictures.
  - The pictures on screen are a pure function of the list and the selected
    category: the catch-all `"All"` shows every picture, any other category
    is an exact-equality filter that keeps the original order.
  - A `GalleryView` class holds `activeCategory`, the lightbox's
    `selectedImage` and the body's overflow style.
- **Contact form** (`contact.dfy`, module `Contact`). A `ContactForm` class
  holds the five-field `formData` record and a ghost log of the
  notifications (toasts) it has shown.
  - A keystroke sets one field.
  - Sending shows "Message Sent!" and clears every field.
  - The newsletter form shows "Subscribed!" and leaves the record alone.
- **Navigation bar** (`navigation.dfy`, module `Navigation`). A
  `NavigationBar` class holds `isMenuOpen` and `isScrolled`.
  - The burger button flips the menu.
  - A menu entry closes it.
  - A scroll event sets `isScrolled` to `scrollY > 50`, strictly.

`flags.dfy` (module `Flags`) counts the set entries of a row of on/off
flags. Stars, indicator dots and category buttons all use it.

Two details of the code decide behaviour that is easy to misread:

- The lightbox is drawn under `selectedImage && …`
  (src/components/Gallery.tsx:207). That is a JavaScript truthiness test, so
  an empty address would not show it. `Gallery.GalleryView.LightboxShown`
  follows that. `Gallery.EveryItemOpensLightbox` shows that no real picture
  has an empty address.
- The autoplay interval is created once: its only dependency,
  `testimonials.length`, never changes (src/components/Testimonials.tsx:79).
  A click on an arrow or a dot does not restart it, so every tick advances
  from whatever slide the visitor chose. `Tick` follows that.

## Model

| member | source | states |
|---|---|---|
| `Testimonials.AllTestimonials` | src/components/Testimonials.tsx:12-45 | the carousel's list holds exactly four testimonials (ids 1 to 4, each rated 5) |
| `Testimonials.NextIndex` | src/components/Testimonials.tsx:81-83 | `(i + 1) % n` stays in [0, n); it is `i + 1`, except that the last slide wraps to 0 |
| `Testimonials.PrevIndex` | src/components/Testimonials.tsx:85-87 | `(i - 1 + n) % n` stays in [0, n); it is `i - 1`, except that slide 0 wraps to `n - 1` |
| `Testimonials.PrevNextInverse` | src/components/Testimonials.tsx:81-87 | previous-then-next and next-then-previous both return to the starting slide |
| `Testimonials.Advance` | src/components/Testimonials.tsx:74-76 | any number of forward steps stays on a valid slide |
| `Testimonials.AdvanceIsModularSum` | src/components/Testimonials.tsx:74-83 | k forward steps, by arrow or by tick, from slide i land on `(i + k) % n` |
| `Testimonials.FullCycle` | src/components/Testimonials.tsx:81-83 | n forward steps in a carousel of n slides return to the starting slide |
| `Testimonials.AutoplayAdvance` | src/components/Testimonials.tsx:72-79 | k firings of the 5000 ms interval advance the index by exactly `k mod n` |
| `Testimonials.RenderStars` | src/components/Testimonials.tsx:89-98 | always five stars; star i is filled exactly when `i < rating` |
| `Testimonials.FilledStars` | src/components/Testimonials.tsx:89-98 | the number of filled stars is the rating clipped to [0, 5] |
| `Testimonials.AllTestimonialsShowFiveStars` | src/components/Testimonials.tsx:129 | the card shows five filled stars for each of the four testimonials |
| `Testimonials.Indicators` | src/components/Testimonials.tsx:178-188 | one dot per slide; dot j is marked active exactly when `j == currentSlide` |
| `Testimonials.ExactlyOneIndicatorActive` | src/components/Testimonials.tsx:182-186 | for a valid current slide, exactly one dot is active |
| `Testimonials.Carousel.constructor` | src/components/Testimonials.tsx:10 | the carousel starts on slide 0 of a non-empty list |
| `Testimonials.Carousel.ActiveIndicators` | src/components/Testimonials.tsx:177-189 | in every valid state, exactly one dot is active, and it is the current slide's |
| `Testimonials.Carousel.NextSlide` | src/components/Testimonials.tsx:81-83 | the right arrow sets the index to `NextIndex` of the old one and keeps it valid |
| `Testimonials.Carousel.PrevSlide` | src/components/Testimonials.tsx:85-87 | the left arrow sets the index to `PrevIndex` of the old one and keeps it valid |
| `Testimonials.Carousel.Tick` | src/components/Testimonials.tsx:74-76 | an autoplay tick makes exactly the right arrow's transition |
| `Testimonials.Carousel.Autoplay` | src/components/Testimonials.tsx:72-79 | k firings of the interval in a row move the carousel on by `Advance` of k steps, that is by exactly `k mod n` slides, and keep the index valid |
| `Testimonials.Carousel.GoTo` | src/components/Testimonials.tsx:178-181 | a dot click sets the index to the dot's own position, which is always valid |
| `Testimonials.FourTestimonialScenario` | src/components/Testimonials.tsx:12-87 | with the four testimonials, four right-arrow presses from slide 0 return to 0, and one left-arrow press from 0 reaches 3 |
| `Gallery.GalleryItems` | src/components/Gallery.tsx:15-72 | the gallery has eight pictures |
| `Gallery.Categories` | src/components/Gallery.tsx:12 | six category buttons, the catch-all `'All'` first, no name twice |
| `Gallery.KeepCategory` | src/components/Gallery.tsx:76 | the filter never lengthens the list, and everything it keeps has the requested category |
| `Gallery.KeepCategorySpec` | src/components/Gallery.tsx:76 | the filter's result is a subsequence of the items; each item of the category occurs in it as often as in the list, and no other item occurs |
| `Gallery.FilteredItems` | src/components/Gallery.tsx:74-76 | the visible list is never longer than the full list |
| `Gallery.FilteredItemsSpec` | src/components/Gallery.tsx:74-76 | `'All'` shows the full list in its original order; any other category shows exactly the items of that category, in their original relative order; either way the result is a subsequence of the list |
| `Gallery.FilteredMembership` | src/components/Gallery.tsx:76 | under a concrete category, an item is visible iff it is in the list and has that category |
| `Gallery.FilteredMembershipAll` | src/components/Gallery.tsx:76 | the same, for all items at once |
| `Gallery.Highlights` | src/components/Gallery.tsx:159-168 | one button per category; button j is highlighted exactly when its category is the selected one |
| `Gallery.HighlightCount` | src/components/Gallery.tsx:159-168 | with distinct category names, exactly one button is highlighted if the selection is one of them, and none otherwise |
| `Gallery.OneCategoryHighlighted` | src/components/Gallery.tsx:12 | for a selection from the six categories, exactly one button is highlighted |
| `Gallery.FiltersPartition` | src/components/Gallery.tsx:74-76 | if every item has one of a list of distinct concrete categories, the sizes of those categories' filters add up to the number of items |
| `Gallery.GalleryPartition` | src/components/Gallery.tsx:12-72 | every picture's category is one of the five concrete categories, and their five filters show 8 pictures between them |
| `Gallery.EngineScenario` | src/components/Gallery.tsx:15-76 | `'Engine'` shows the pictures with ids [1, 6] |
| `Gallery.InteriorScenario` | src/components/Gallery.tsx:15-76 | `'Interior'` shows the picture with id [5] |
| `Gallery.CatchAllScenario` | src/components/Gallery.tsx:15-76 | `'All'` shows ids 1 to 8 in order |
| `Gallery.ThreeItemScenario` | src/components/Gallery.tsx:74-76 | for items A (Engine), B (Brakes), C (Engine), `'Engine'` shows [A, C] and `'All'` shows [A, B, C] |
| `Gallery.GalleryView.constructor` | src/components/Gallery.tsx:10-13 | the gallery starts on `'All'`, with no picture selected |
| `Gallery.GalleryView.Visible` | src/components/Gallery.tsx:173 | the grid is the filter's result for the selected category: the full list under `'All'`, otherwise exactly the items of that category, always as a subsequence of the list |
| `Gallery.GalleryView.ActiveHighlights` | src/components/Gallery.tsx:159-168 | in every reachable state exactly one category button is highlighted, and it is the selected category's |
| `Gallery.GalleryView.LightboxShown` | src/components/Gallery.tsx:207 | the lightbox is drawn exactly when a picture is selected and its address is non-empty (JavaScript truthiness) |
| `Gallery.GalleryView.SetActiveCategory` | src/components/Gallery.tsx:163 | a category click changes only `activeCategory`; the lightbox and the overflow style stay as they were |
| `Gallery.GalleryView.OpenLightbox` | src/components/Gallery.tsx:134-137 | the picture becomes `selectedImage` and the overflow becomes hidden; the lightbox shows iff the address is not empty; the selected category stays a valid button |
| `Gallery.GalleryView.CloseLightbox` | src/components/Gallery.tsx:139-142 | `selectedImage` becomes null, the overflow becomes auto, the lightbox is hidden, and the selected category stays a valid button |
| `Gallery.EveryItemOpensLightbox` | src/components/Gallery.tsx:177 | every picture has a non-empty address, so clicking any picture shows the lightbox |
| `Contact.EmptyForm` | src/components/Contact.tsx:14-20 | every field of the initial form is the empty string |
| `Contact.WithField` | src/components/Contact.tsx:104-110 | the named field takes the new value, and every other field keeps its value |
| `Contact.OverwriteField` | src/components/Contact.tsx:104-110 | two edits of one field leave only the second value |
| `Contact.EditsCommute` | src/components/Contact.tsx:104-110 | edits of two different fields give the same form in either order |
| `Contact.RewriteSameValue` | src/components/Contact.tsx:104-110 | a write leaves the form unchanged exactly when the field already held that value; writing a field's current value back changes nothing |
| `Contact.ContactForm.constructor` | src/components/Contact.tsx:14-20 | the form starts with all five fields empty and no notification shown |
| `Contact.ContactForm.HandleInputChange` | src/components/Contact.tsx:104-110 | a keystroke sets exactly the named field; no notification is shown |
| `Contact.ContactForm.HandleSubmit` | src/components/Contact.tsx:112-129 | sending appends exactly one "Message Sent!" notification and resets the form to the initial state, whatever it held |
| `Contact.ContactForm.HandleNewsletterSubmit` | src/components/Contact.tsx:131-137 | subscribing appends exactly one "Subscribed!" notification and leaves `formData` untouched |
| `Contact.FillAndSubmitScenario` | src/components/Contact.tsx:104-129 | after three fields are typed, the form holds exactly those values; after sending, it is the initial form, and exactly one notification was shown |
| `Navigation.MenuItems` | src/components/Navigation.tsx:12-19 | six menu entries, each linking to a `#` fragment of the page, no text twice |
| `Navigation.PastThreshold` | src/components/Navigation.tsx:23 | scrolled exactly when `scrollY > 50`; never at the top of the page |
| `Navigation.ThresholdIsStrict` | src/components/Navigation.tsx:22-24 | the bar counts as scrolled iff `scrollY > 50`: 50 itself does not count, and scrolling further never clears it |
| `Navigation.NavigationBar.constructor` | src/components/Navigation.tsx:7-8 | `isMenuOpen` and `isScrolled` both start false |
| `Navigation.NavigationBar.MobileMenuShown` | src/components/Navigation.tsx:94 | the mobile menu panel is drawn exactly while `isMenuOpen` holds |
| `Navigation.NavigationBar.HandleScroll` | src/components/Navigation.tsx:22-24 | a scroll event sets `isScrolled` to `scrollY > 50` and leaves the menu alone |
| `Navigation.NavigationBar.ToggleMenu` | src/components/Navigation.tsx:85 | the burger button flips `isMenuOpen`, so the mobile panel appears or disappears, and leaves `isScrolled` alone |
| `Navigation.NavigationBar.HandleMenuItemClick` | src/components/Navigation.tsx:39-45 | a menu-entry click leaves the menu closed and the mobile panel gone, whatever its state, and does not change `isScrolled` |
| `Navigation.ToggleTwice` | src/components/Navigation.tsx:85 | two burger presses restore both flags |
| `Navigation.MenuScenario` | src/components/Navigation.tsx:7-45 | open, click an entry: the menu is closed; a scroll to 50 px is not scrolled, a scroll to 51 px is |

## Left out

- All animation timelines and scroll triggers, and their setup and
  teardown, in every component. They are calls into a foreign animation
  library with floating-point durations and easing.
- The lifecycle of the autoplay timer (`setInterval` / `clearInterval`).
  Timer scheduling and cancellation belong to the runtime. Only the
  transition one tick makes is modelled (`Tick`, `AutoplayAdvance`).
- DOM side effects. `scrollIntoView` and `document.querySelector` in
  `handleMenuItemClick` are left out, and so is registering the scroll
  listener. The `document.body.style.overflow` write is recorded only as
  the abstract field `GalleryView.bodyOverflow`. The value of
  `window.scrollY` becomes the parameter of `HandleScroll`. The
  `e.preventDefault()` calls in `handleSubmit` and `handleNewsletterSubmit`
  are left out too. They stop the browser from reloading the page on
  submit, so the model takes that as given: a submission only runs its
  handler.
- The rendering of notifications and the toast hook. A notification is an
  entry appended to the ghost log `ContactForm.toasts`.
- Browser validation of the form. The inputs carry `required` and
  `type="email"` attributes (src/components/Contact.tsx:201-282), but the
  checking itself is done by the browser, not by the code. The model
  therefore lets every submission reach its handler, so `HandleSubmit`
  can fire from states the browser would block, such as the empty form.
  The text typed into the newsletter's email box is never stored in the
  source, so it has no state here.
- The hero banner's `audioPlayed` latch (src/components/Hero.tsx:11,
  69-72, 129-130). It starts false. On the first click of the engine
  button after the sound has loaded, the handler plays the sound and sets
  the latch; later clicks do nothing. From then on the button reads "Engine Sound" instead of
  "Start Engine". It guards a foreign audio call (and a shake animation)
  and has no other effect, so it is not modelled.
- Featured products, about, how-it-works, footer and page composition
  (`src/pages/Index.tsx`). They are static content or foreign calls: the
  year from the clock.
  Featured products' star row rounds fractional ratings with `Math.floor`.
- Markup details: class names, icons, and the stats row under the
  carousel, which is static text.
- Testimonials.RenderStars: the rating is an integer. The source's `number`
  could be fractional, but every testimonial's rating is the integer 5.
- Contact.WithField: the changed field is one of the form's five input
  names. The source's computed key `[name]` would also accept any other
  string and add a sixth key, but only the five named inputs call the
  handler.
- Gallery.GalleryView.SetActiveCategory: the category is required to be
  one of the six buttons. The source accepts any string, but only the six
  buttons call the handler.
