# gtdOS client logic, modelled in Dafny

The repository is the web front end of a gamified task manager: a landing
page, a themed login / sign-up / password-reset screen, and the pages the
authentication service's e-mail links lead to. Almost all of it is
rendering. This project models the parts that hold state or compute:

- the **toast queue** (`src/hooks/use-toast.ts`): a list of toasts and a
  list of listeners; `toast()` appends a visible toast, notifies every
  listener with a copy of the list, and starts a timer whose callback fades
  the toast and starts a second timer that removes it (`toast.dfy`,
  module `Toasts`);
- the **login screen** (`src/components/login-screen.tsx`): the form schemas,
  the auth-mode state machine driven by the service's answers, the loading
  flag and error banner, the background-theme index and the light/dark
  toggle (`login_screen.dfy`, `forms.dfy`, `theme_cycle.dfy`);
- the **theme selector** (`src/components/theme-selector.tsx`): its initial
  index, previous/next steps and selection callback (`theme_selector.dfy`);
- the **landing page** (`src/app/landing.tsx`): the rotating hero word, the
  header's scroll flag, menu toggle and in-page anchor links (`landing.dfy`);
- the **auth callback pages**: the reset-password form
  (`reset_password.dfy`) and the verify and confirm pages, which share one
  shape (`email_callback.dfy`, `verify_page.dfy`, `confirm_page.dfy`).

How the model is built:

- Calls to the authentication service are not modelled; what the service
  answers is an input, `Ok` or `Err(message)` (`Common.ProviderResult`).
  The screens show `message`, or a fixed fallback when it is empty.
- An `async` handler is split at its `await` into two methods: the part
  before the call (`BeginSubmit`) and the part after it (`Complete...`),
  which takes the service's answer. Other events may happen in between, as
  they can in the browser.
- Timers are events. A started `setTimeout` is an element of the toast
  store's `pending` multiset; `FireTimer` runs any pending timer. The order
  in which timers fire depends on their delays and on the clock, which the
  model does not have, so any pending timer may fire next.
- JavaScript's `%` truncates toward zero; `ThemeCycle.JsRem` models it, so
  the step from the index -1 is computed as the source computes it.
- URL query parameters are a `map<string, string>`; a parameter counts as
  present when it is in the map and non-empty (JavaScript truthiness of
  `searchParams.get(...)`).
- A state change that React applies on the next render is applied at once,
  in the order of the `set...` calls.

Properties proved, among others: a toast's removal always follows a fade of
its id, and a toast in the list always still has the timer that will fade or
remove it pending (`Toasts.ToastStore.Valid`); fading and removal are
idempotent, and removal keeps the survivors in order; an unsubscribed
listener receives no further broadcast; the theme indices stay in range and
previous/next undo each other; `TextRotate` returns to its first text after
as many ticks as it has texts; the two callback pages read different token
parameters.

Where the description of the toast queue and its code differ, the model
follows the code: the code does not reject an empty title or a
non-positive duration (it stores `duration || 3000`), its ids are random
and not guaranteed unique, a new listener receives nothing until the next
change, and when two toasts share an id, the first removal timer for that
id removes both, even one that is still visible.

The password schemas report the mismatch issue even when a length issue is
also present: zod runs an object's `.refine` after non-fatal field issues
such as `min(6)`, and `Forms.PasswordPairIssues` reports both likewise.

## Model

| member | source | states |
|---|---|---|
| `Common.ErrorText` | src/components/login-screen.tsx:178 | `err.message \|\| fallback`, used by every failure branch (also lines 121, 208, 228, and src/app/auth/reset-password/page.tsx:57): a non-empty message is shown as is, an empty one gives way to the fallback |
| `Common.Param` | src/components/login-screen.tsx:101-102 | `searchParams.get(key)`: present exactly when the key is in the URL, with its value |
| `Toasts.NewToast` | src/hooks/use-toast.ts:24-31 | the stored toast carries the id, is visible, copies title, description and type, and has `props.duration` as duration when it is given and non-zero, 3000 otherwise (a duration of 0 becomes 3000) |
| `Toasts.MarkFaded` | src/hooks/use-toast.ts:37 | same length and order; every toast with the id is the same toast with `visible` false, every other toast is unchanged in its place |
| `Toasts.MarkFadedIdempotent` | src/hooks/use-toast.ts:37 | fading twice equals fading once, and fading keeps every position's id |
| `Toasts.Filtered` | src/hooks/use-toast.ts:41 | never longer than the list; holds exactly the listed toasts whose id differs |
| `Toasts.FilteredAppend` | src/hooks/use-toast.ts:41 | removal on a split list is removal on each part, concatenated: survivors keep their order |
| `Toasts.FilteredAbsent` | src/hooks/use-toast.ts:41 | removing an id no toast carries leaves the list unchanged |
| `Toasts.FilteredIdempotent` | src/hooks/use-toast.ts:41 | removing twice equals removing once |
| `Toasts.FilteredAfterFade` | src/hooks/use-toast.ts:36-43 | removing after fading the same id gives the same list as removing alone |
| `Toasts.CoveredAfterFade` | src/hooks/use-toast.ts:36-43 | after a fade callback, every visible toast still has its fade timer pending and every faded one its removal timer |
| `Toasts.Broadcast` | src/hooks/use-toast.ts:20-22 | one listener call per registered listener, in registration order, each with the same copy of the list |
| `Toasts.ToastStore.constructor` | src/hooks/use-toast.ts:17-18 | no toasts, no listeners, no timers |
| `Toasts.ToastStore.Notify` | src/hooks/use-toast.ts:20-22 | the loop makes exactly the calls of `Broadcast` on the current list and changes nothing else |
| `Toasts.ToastStore.Enqueue` | src/hooks/use-toast.ts:24-45 | appends exactly the new toast at the end, earlier toasts unchanged; notifies with the new list; starts one fade timer whose delay is the stored duration; keeps the store valid |
| `Toasts.ToastStore.Fade` | src/hooks/use-toast.ts:36-39 | the fired fade timer is consumed; toasts become `MarkFaded` of the old list; listeners are notified; a removal timer for the id starts |
| `Toasts.ToastStore.Remove` | src/hooks/use-toast.ts:40-43 | the fired removal timer is consumed; toasts become `Filtered` of the old list; listeners are notified; the removal is recorded after a fade of the same id |
| `Toasts.ToastStore.FireTimer` | src/hooks/use-toast.ts:36-44 | any pending timer may fire and is consumed: a fade timer fades its id, records the fade and starts that id's removal timer; a removal timer removes the id and records the removal; the listeners are notified with the new list |
| `Toasts.ToastStore.Subscribe` | src/hooks/use-toast.ts:55 | the listener is appended at the end of the listeners |
| `Toasts.ToastStore.Unsubscribe` | src/hooks/use-toast.ts:56-58 | the listeners become `WithoutListener` of the old ones |
| `Toasts.WithoutListener` | src/hooks/use-toast.ts:57 | the listener no longer occurs; every other listener is kept |
| `Toasts.WithoutListenerAppend` | src/hooks/use-toast.ts:57 | unsubscribing keeps the other listeners in registration order |
| `Toasts.WithoutListenerAbsent` | src/hooks/use-toast.ts:57 | unsubscribing a listener that is not registered changes nothing |
| `Toasts.WithoutListenerIdempotent` | src/hooks/use-toast.ts:56-58 | calling the cleanup twice equals calling it once |
| `Toasts.UnsubscribedHearsNothing` | src/hooks/use-toast.ts:20-22 | after unsubscribing, no broadcast reaches the listener |
| `ThemeCycle.JsRem` | src/components/theme-selector.tsx:27 | JavaScript's `%` for a positive divisor: the result takes the dividend's sign and is smaller than the divisor in size; a dividend already in [0, n) is its own remainder |
| `ThemeCycle.JsRemTruncates` | src/components/theme-selector.tsx:27 | against Dafny's Euclidean `%`: for a non-negative dividend the same remainder; for a negative one the negated remainder of its absolute value (truncation toward zero) |
| `ThemeCycle.Next` | src/components/theme-selector.tsx:27 | `(i + 1) % n`, also login-screen.tsx:235: from any index of at least -1, a valid index |
| `ThemeCycle.Prev` | src/components/theme-selector.tsx:33 | `(i - 1 + n) % n`, also login-screen.tsx:239: from any index of at least 1 - n, a valid index |
| `ThemeCycle.StepsStayInRange` | src/components/theme-selector.tsx:26-36 | from an index in [-1, n), next and previous land in [0, n); next wraps the last index to 0, previous wraps 0 to the last |
| `ThemeCycle.StepsInverse` | src/components/login-screen.tsx:234-240 | on a valid index, next then previous, and previous then next, return to it |
| `ThemeSelector.FindIndex` | src/components/theme-selector.tsx:23 | the first position whose id matches, or -1 exactly when no theme has the id |
| `ThemeSelector.OrZero` | src/components/theme-selector.tsx:23 | `x \|\| 0` on an integer never changes it: only 0 is falsy, and 0 gives 0 |
| `ThemeSelector.InitialIndexAsWritten` | src/components/theme-selector.tsx:22-24 | as written, the initial index is exactly `findIndex`'s answer, so it may be -1 |
| `ThemeSelector.AsWrittenUnknownIdIsOutOfRange` | src/components/theme-selector.tsx:22-24 | as written, an unknown theme id gives the initial index -1, outside the list |
| `ThemeSelector.AsWrittenRetroExample` | src/components/theme-selector.tsx:22-24 | the two application themes and the id "retro" give -1 |
| `ThemeSelector.InitialIndex` | src/components/theme-selector.tsx:22-24 | corrected: always a valid index; the matching theme (as written) when the id is known, 0 otherwise |
| `ThemeSelector.Selector.constructor` | src/components/theme-selector.tsx:22-24 | starts on the corrected initial index, with no selection reported |
| `ThemeSelector.Selector.CurrentName` | src/components/theme-selector.tsx:45 | the shown name is one of the themes' names |
| `ThemeSelector.Selector.NextTheme` | src/components/theme-selector.tsx:26-30 | index becomes `(i + 1) % n`, stays valid, and `onSelectTheme` is called once with the new theme's id |
| `ThemeSelector.Selector.PrevTheme` | src/components/theme-selector.tsx:32-36 | index becomes `(i - 1 + n) % n`, stays valid, and `onSelectTheme` is called once with the new theme's id |
| `ThemeSelector.NextThenPrevRestores` | src/components/theme-selector.tsx:26-36 | a next step followed by a previous step restores the index, reporting the two themes passed through |
| `Forms.PasswordPairIssues` | src/app/auth/reset-password/page.tsx:12-20 | no issue exactly when both passwords have at least 6 characters and are equal; a mismatch is reported under `confirmPassword` as "Passwords don't match", a short field under its own name |
| `LoginScreen.LoginIssues` | src/components/login-screen.tsx:25-28 | accepted exactly with a valid e-mail and a password of at least 6 characters |
| `LoginScreen.SignupIssues` | src/components/login-screen.tsx:30-39 | accepted exactly with a valid e-mail and two equal passwords of at least 6 characters; a mismatch is reported under `confirmPassword` |
| `LoginScreen.ResetIssues` | src/components/login-screen.tsx:41-43 | accepted exactly with a valid e-mail |
| `LoginScreen.LinkTargets` | src/components/login-screen.tsx:368-578 | no link leads to "verifying" or "reset sent"; only the login form links anywhere but back to login |
| `LoginScreen.StartsVerification` | src/components/login-screen.tsx:104 | `token_hash && type`: both parameters are in the URL and both are non-empty |
| `LoginScreen.ToggledTheme` | src/components/login-screen.tsx:251-253 | "dark" becomes "light"; any other value, or none, becomes "dark" |
| `LoginScreen.ToggleTwice` | src/components/login-screen.tsx:252 | toggling a light or dark theme twice returns to it |
| `LoginScreen.Screen.constructor` | src/components/login-screen.tsx:86-91 | not loading, theme 0, mode "login", no error, empty reset e-mail |
| `LoginScreen.Screen.CheckVerificationLink` | src/components/login-screen.tsx:100-105 | enters "verifying" exactly when `token_hash` and `type` are both present; otherwise the mode is unchanged |
| `LoginScreen.Screen.CompleteVerification` | src/components/login-screen.tsx:107-123 | a failed code check shows the message or "Verification failed" and returns to "login"; success changes neither |
| `LoginScreen.Screen.BeginSubmit` | src/components/login-screen.tsx:164-165 | every submit starts loading and clears the error |
| `LoginScreen.Screen.CompleteLogin` | src/components/login-screen.tsx:167-181 | loading ends; a failure shows the message or "Failed to sign in"; the mode is untouched |
| `LoginScreen.Screen.CompleteSignup` | src/components/login-screen.tsx:188-211 | loading ends; success clears the form and switches to "login"; a failure shows the message or "Failed to sign up" and keeps mode and form |
| `LoginScreen.Screen.CompleteReset` | src/components/login-screen.tsx:218-231 | loading ends; success stores the e-mail and switches to "reset sent"; a failure shows the message or "Failed to send reset email" and keeps mode and e-mail |
| `LoginScreen.Screen.FollowLink` | src/components/login-screen.tsx:368-371 | a rendered link sets the mode it names |
| `LoginScreen.Screen.NextTheme` | src/components/login-screen.tsx:234-236 | the index moves to the next theme, wrapping, and stays valid |
| `LoginScreen.Screen.PrevTheme` | src/components/login-screen.tsx:238-240 | the index moves to the previous theme, wrapping, and stays valid |
| `LoginScreen.Screen.ToggleColorTheme` | src/components/login-screen.tsx:251-253 | the theme provider receives the toggled theme |
| `LoginScreen.SignIn` | src/components/login-screen.tsx:163-182 | a whole sign-in changes only the loading flag and the error: it ends not loading, with no error exactly when the service accepted, and otherwise with the service's message or "Failed to sign in" |
| `Landing.Rotate` | src/app/landing.tsx:41-43 | one tick either wraps to 0 or advances by one, and from a valid index it stays valid |
| `Landing.RotateIsModular` | src/app/landing.tsx:41-43 | for a non-empty list, one tick stays in range and equals `(prev + 1) mod len` |
| `Landing.RotateWithinCycle` | src/app/landing.tsx:41-43 | within one cycle the index advances by the number of ticks, wrapping at most once |
| `Landing.RotateFullCycle` | src/app/landing.tsx:41-43 | after `len` ticks the index is back where it started |
| `Landing.EmptyTextsNeverWrap` | src/app/landing.tsx:37-43 | with no texts the index starts at 0 and grows by one each tick, never wrapping |
| `Landing.AnchorTarget` | src/app/landing.tsx:112-114 | an href is intercepted exactly when it starts with `#`, and the target id is the href without it |
| `Landing.AnchorRoundTrip` | src/app/landing.tsx:114 | `#` followed by an id resolves to that id |
| `Landing.MenuAnchors` | src/app/landing.tsx:89-94 | the three `#` menu links resolve to their section ids; "/docs" is not intercepted |
| `Landing.HeroHeader.constructor` | src/app/landing.tsx:97-98 | the menu is closed and the header not scrolled |
| `Landing.HeroHeader.HandleScroll` | src/app/landing.tsx:101-103 | scrolled exactly when `scrollY > 50` |
| `Landing.HeroHeader.ToggleMenu` | src/app/landing.tsx:166 | the menu button negates the menu state |
| `Landing.HeroHeader.HandleNavClick` | src/app/landing.tsx:108-120 | the default is prevented exactly for `#` hrefs; the page scrolls and the menu closes only when the element exists; otherwise the menu is unchanged |
| `ResetPassword.Page.constructor` | src/app/auth/reset-password/page.tsx:26-28 | not loading, no error, not succeeded |
| `ResetPassword.Page.BeginSubmit` | src/app/auth/reset-password/page.tsx:40-41 | loading starts and the error is cleared |
| `ResetPassword.Page.CompleteSubmit` | src/app/auth/reset-password/page.tsx:43-60 | loading ends; success sets `isSuccess`; a failure keeps `isSuccess` and shows the message or the fallback; `isSuccess` is never cleared |
| `ResetPassword.Submit` | src/app/auth/reset-password/page.tsx:39-61 | a whole submission ends not loading; success leaves no error |
| `EmailCallback.Initial` | src/app/auth/verify/page.tsx:12-15 | the page starts loading, with its waiting message |
| `EmailCallback.LinkComplete` | src/app/auth/verify/page.tsx:23 | the negation of `!token \|\| !type` (also src/app/auth/confirm/page.tsx:21 with `token_hash`): both parameters are in the URL and non-empty |
| `EmailCallback.Outcome` | src/app/auth/verify/page.tsx:17-58 | never loading; success exactly with a complete link and no exception; an incomplete link gives the invalid-link error, an exception the failure error |
| `EmailCallback.OutcomesConsistent` | src/app/auth/verify/page.tsx:12-58 | every reachable view pairs its status with its own message, and the effect never returns to loading |
| `EmailCallback.Page.constructor` | src/app/auth/confirm/page.tsx:12-13 | the page starts loading, with its waiting message |
| `EmailCallback.Page.Run` | src/app/auth/confirm/page.tsx:16-53 | the early-return and catch branches end in exactly `Outcome`'s view, and status and message stay consistent |
| `VerifyPage.VerifyOutcomes` | src/app/auth/verify/page.tsx:12-54 | with the verify page's texts and the `token` key: the three outcomes and their exact messages |
| `VerifyPage.Open` | src/app/auth/verify/page.tsx:9-58 | opening the page ends in `Outcome` for the verify page's texts |
| `ConfirmPage.ConfirmOutcomes` | src/app/auth/confirm/page.tsx:12-52 | with the confirm page's texts and the `token_hash` key: the three outcomes and their exact messages |
| `ConfirmPage.TokenKeysDiffer` | src/app/auth/confirm/page.tsx:18 | a link with only `token_hash` confirms but fails verification, and one with only `token` the other way round |
| `ConfirmPage.Open` | src/app/auth/confirm/page.tsx:9-56 | opening the page ends in `Outcome` for the confirm page's texts |

## Findings

| source | as written | input that shows it | evidently intended | confidence | as-written member | corrected member |
|---|---|---|---|---|---|---|
| src/components/theme-selector.tsx:22-24 | `findIndex(...) \|\| 0` keeps -1 for an unknown id, since -1 is truthy; the first render then reads `themes[-1].name` (line 45), which throws | the two themes "cyberpunk" and "space" with `currentThemeId` "retro" | fall back to the first theme, index 0 | high; not executed | `ThemeSelector.AsWrittenUnknownIdIsOutOfRange` | `ThemeSelector.InitialIndex` |

`ThemeSelector.Selector` starts from the corrected index. The steps are
still proved safe from -1 (`ThemeCycle.StepsStayInRange`), which is what the
code does if the render survives.

## Left out

- Rendering, styling, animation, images, SEO tags and the video embed: presentation only.
- The authentication service's calls: their answers are inputs (`Ok` or `Err(message)`).
- Navigation and page I/O: `router.push`, `alert`, `window.location.reload`, `scrollIntoView`, and the scroll-listener registration. `HandleNavClick` returns the id to scroll to instead.
- Wall-clock time: timer delays are recorded, but firing order is free. "A toast fades no earlier than its duration" is not modelled. The 2000 ms simulated waits and redirect delays are left out too.
- The clock and date display: they depend on `Date` and locale formatting.
- `Math.random` ids: every operation takes the id as an argument. Ids are not claimed unique, because the code does not ensure it.
- `Toasts.NewToast`: the duration is an integer. A `NaN` duration, which `||` also replaces by 3000, and fractional durations are not modelled.
- zod's e-mail check is a library predicate. Its verdict is a boolean input.
- zod's `min(6)` counts UTF-16 code units. The model counts characters.
- react-hook-form shows only the first issue of each field. The model returns every issue.
- `ThemeSelector.Selector.constructor` requires a non-empty theme list. With none, the source's render already fails at line 45.
- The routing pages, the system page's auth gate, the themes page, the environment check and the tooling configuration: they hold no modelled logic.

