# Volunteer events site: route guard, login URL and event search

This project models the few pieces of the community-events web application
that decide something on their own, rather than passing data to and from the
hosted backend:

- **Route guard** (`middleware.js`): each request is let through, unless there
  is no signed-in user and the path starts with `/dashboard` or `/profile`.
  In that case it is redirected to a fixed login page (module `Middleware`).
- **Login URL** (`app/lib/auth.js`): `getLoginUrl` takes the first
  configured site from `NEXT_PUBLIC_AUTH_SITE_URL`, `NEXT_PUBLIC_MAIN_SITE_URL`
  or a built-in default. It drops one trailing `/` and appends `/login`
  (module `Auth`).
- **Home page** (`app/page.js`): the case-insensitive search over the loaded
  events by title or location, the choice of an event's organizer id
  (`user_id || organization_id`), and the component state that opening and
  closing the organizer profile updates (module `HomePage`, class
  `HomePageState`).

`Strings` models the JavaScript string primitives the code uses
(`toLowerCase`, `startsWith`, `includes`). It also has a suffix test,
`EndsWith`, which the code does not call. It is used to state what the `$`
anchor in `replace(/\/$/, "")` matches and that every login URL ends in
`/login`. `Wrappers` holds
`Option` (for `null`) and `Result` (for a thrown error).

External calls become parameters. The user lookup in the middleware becomes
the flag `hasUser`. A failed lookup yields no user, so a failure counts as
signed-out. The environment variables become two strings, where `""` stands
for an unset variable, since JavaScript's `||` skips both. The rows returned by
the events query become the argument of `ReceiveEvents`.

Event columns that the filter lower-cases are `Option<string>`. A `null`
title makes the filter callback throw a `TypeError`, and the whole `filter`
call fails. A `null` location does the same, but only when the title does not
match, because `||` short-circuits. The model keeps this error path as
`Err(TypeError)` and does not assume it away.

The middleware does not call `getLoginUrl`. `middleware.js:51` hard-codes the
redirect target `https://landing-page-volunteer.vercel.app/login`, which
differs from `getLoginUrl`'s default `https://main-website-volunteer.vercel.app/login`.
The model follows the code: `Middleware.Decide` uses the constant
`LoginRedirectUrl`, and `Auth.GetLoginUrl` is modelled on its own.

## Model

| member | source | states |
|---|---|---|
| Strings.LowerChar | app/page.js:35-36 | each of `A`-`Z` becomes the same letter of `a`-`z`; every other character is unchanged; no upper-case ASCII letter is ever produced |
| Strings.Lower | app/page.js:35-36 | `toLowerCase` keeps the length and lower-cases each character in place |
| Strings.LowerEqualIgnoringCase | app/page.js:35-36 | strings that differ only in the case of ASCII letters lower-case to the same string |
| Strings.StartsWith | middleware.js:48 | `startsWith` holds exactly when the prefix occurs at index 0 |
| Strings.Includes | app/page.js:35-36 | a string includes only terms no longer than itself, and always includes the empty term |
| Strings.IncludesIffOccurs | app/page.js:35-36 | `includes` holds exactly when the term occurs at some index of the string (the index-based reference definition) |
| Middleware.AnyPrefix | middleware.js:48 | `some(p => path.startsWith(p))` is true exactly when one of the listed prefixes starts the path |
| Middleware.IsProtectedPath | middleware.js:47-48 | a path is protected exactly when it starts with `/dashboard` or `/profile` |
| Middleware.Decide | middleware.js:47-54 | the request is redirected if and only if there is no user and the path is protected; a redirect always targets the landing-page login URL |
| Middleware.SignedInPassesThrough | middleware.js:50-54 | with a user, every path passes through |
| Middleware.PublicPathPassesThrough | middleware.js:48-54 | a path starting with neither prefix passes through, with or without a user |
| Middleware.HomeIsPublic | middleware.js:47-54 | `/` is never redirected |
| Middleware.RedirectTargetIgnoresPath | middleware.js:51 | any two redirects are identical, whatever paths caused them |
| Middleware.ProtectedIsPrefixClosed | middleware.js:48 | matching is by string prefix: anything appended to a protected path keeps it protected |
| Middleware.ProtectedSamples | middleware.js:47-48 | `/dashboard/x`, `/profiles` and `/dashboardfoo` are protected; `/`, `/dash` and `/Dashboard` are not (matching is case-sensitive) |
| Auth.ConfiguredAuthSite | app/lib/auth.js:2-5 | the chosen site is never empty; a set auth-site value wins, else a set main-site value, else the default |
| Auth.StripTrailingSlash | app/lib/auth.js:7 | a string ending in `/` loses exactly that one character; any other string is unchanged |
| Auth.GetLoginUrl | app/lib/auth.js:1-8 | the login URL always ends with `/login` |
| Auth.LoginUrlPrecedence | app/lib/auth.js:2-7 | a set auth-site value is the one stripped and suffixed, and the main-site value is then irrelevant; otherwise a set main-site value is used; with neither, the default site |
| Auth.DefaultLoginUrl | app/lib/auth.js:2-7 | with nothing configured the URL is exactly `https://main-website-volunteer.vercel.app/login` |
| Auth.LoginUrlRecoversSite | app/lib/auth.js:7 | the configured site is recovered from the URL by removing `/login` and restoring the one stripped slash, if there was one |
| Auth.DoubleSlashKeepsOne | app/lib/auth.js:7 | `x//` gives `x//login`, `x/` and `x` both give `x/login`: only one slash is stripped |
| HomePage.Truthy | app/page.js:40 | an id is falsy exactly when it is `null` or the empty string |
| HomePage.OrganizerIdOf | app/page.js:85 | the chosen id is truthy exactly when `user_id` or `organization_id` is; it is `user_id` when that is truthy, and `organization_id` otherwise |
| HomePage.Matches | app/page.js:35-36 | a null title always makes the callback throw; a non-match means both title and location were present and read |
| HomePage.Filter | app/page.js:34-37 | a successful filter result is an order-preserving subsequence of the events |
| HomePage.MatchesMeaning | app/page.js:35-36 | the callback throws exactly when the title is null, or when the title does not match and the location is null; otherwise it answers whether the lower-cased term occurs in the lower-cased title or location |
| HomePage.FilterDefinedIff | app/page.js:34-37 | the filter succeeds if and only if no event makes its callback throw |
| HomePage.FilterKeepsExactlyWanted | app/page.js:34-37 | on success every wanted event is kept with its full multiplicity, no other event is kept, and the result is no longer than the input |
| HomePage.EmptyTermKeepsAll | app/page.js:34-37 | an empty search returns all events unchanged when every title is present |
| HomePage.FilterIgnoresTermCase | app/page.js:35-36 | search terms that lower-case alike give identical results |
| HomePage.FilterIgnoresLetterCase | app/page.js:35-36 | search terms that differ only in the case of ASCII letters (`MOSCOW`, `moscow`) give identical results, errors included |
| HomePage.HomePageState.constructor | app/page.js:12-18 | the page starts with no events, an empty search, no selected organizer and the profile closed |
| HomePage.HomePageState.Filtered | app/page.js:34-37 | the list shown for the current state, when it can be computed, is an order-preserving subsequence of the loaded events and no longer than them |
| HomePage.HomePageState.ReceiveEvents | app/page.js:30 | the events become the returned rows, or the empty list for `null`; nothing else changes |
| HomePage.HomePageState.SetSearchTerm | app/page.js:59 | the search term becomes the typed value; nothing else changes |
| HomePage.HomePageState.OpenOrganizer | app/page.js:39-46 | a falsy id changes nothing; a truthy id becomes the selected organizer and opens the profile; events, search term and the filtered list are untouched |
| HomePage.HomePageState.OpenOrganizerOf | app/page.js:112 | clicking an event's organizer selects `user_id` if truthy, else a truthy `organization_id`, and opens the profile; with neither, nothing changes |
| HomePage.HomePageState.CloseOrganizer | app/page.js:132 | closing the profile clears only the open flag |

## Left out

- All calls to the hosted backend are left out: `auth.getUser`, the `events` query, and the profile, storage and sign-out calls in the other pages. Their results are parameters (`hasUser`, `ReceiveEvents`).
- The cookie adapter passed to the server client (`middleware.js:16-38`) and the `matcher` configuration (`middleware.js:58-69`) are framework plumbing. The model assumes the middleware runs for the request.
- `new URL(..., req.url)` in the redirect is treated as the absolute URL string itself. The base is ignored for an absolute URL, and the string is already in normal form.
- `console.warn` in `openOrganizer`, rendering, and the `loading` and `selectedEvent` state are not modelled. They are output and presentation.
- Strings.Lower: lower-cases ASCII letters only. JavaScript's `toLowerCase` follows full Unicode case mapping, which can also change the length of a string.
- HomePage.Event: holds only the columns the logic reads. Ids are strings or `null`. A numeric id such as `0`, which is also falsy, is not modelled.
- Session recovery from tokens in the URL and subscriptions to auth changes are not modelled. The middleware's only session input is the user lookup, which is the parameter `hasUser`.
- The dashboard, profile, navbar and organizer-dialog pages are out of scope. They hold form state, uploads with random file names, locale-dependent date formatting and direct backend calls.
