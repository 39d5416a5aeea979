# Volunteer platform web client: the client-side logic, modelled in Dafny

This project models the client-side logic of a volunteer-matching web
application. The application is a React front end that talks to a REST API.
The model covers:

- the **API client** (`api.tsx`):
  - the request interceptor, which attaches the stored bearer token except on public routes;
  - the response interceptor, which clears both tokens on a 401;
  - the session-writing auth calls (`register`, `login`, `registerOrganization`, `loginOrganization`, `logout`);
  - the `fetchProfile` guard;
  - the `getRecommendedVolunteers` fallback;
  - the body `createOpportunity` posts.
- the **auth context** (`AuthContext.tsx`): the `isAuthenticated` / `userType` view, derived from storage at start-up and on every storage event (which fires only for writes made in other tabs), and overwritten by `setAuth`.
- the **volunteer dashboard** (`VolunteerDashboard.tsx`): the four-criterion opportunity filter, the Apply button's capacity rule, and the load and apply transitions.
- the **community page** (`CommunityPage.tsx`): the category filter, the like update, the comment guard and reset, post creation, and the single expanded post.
- the **opportunity form modal** (`OpportunityModal.tsx`): initial values, field updates, comma-separated skill parsing, submission, and the closed-modal guard.
- the **organization dashboard** (`OrganizationDashboard.tsx`): the newest-first in-place sort, the append on create, and the normalisation of recommended volunteers.

How the model represents the program:

- Each server reply is a parameter of the operation that awaits it: `Success(data)` or `Failure(HttpError(status, data) | NetworkError)`.
- `localStorage` is a class whose string map the operations update.
- Each component's state is a class whose fields are the `useState` variables.
- JavaScript objects built with spread syntax are maps from keys to JSON values. Their truthiness follows JavaScript: `null`, `false`, `0` and `""` are falsy.
- `created_at` is an integer instant.

Modules and files:

- `wrappers.dfy`: Option and Result.
- `json.dfy`: JSON values and truthiness.
- `text.dfy`: the string operations the code uses (`toLowerCase`, `includes`, `trim`, `split`, `join`).
- `lists.dfy`: `filter`.
- `entities.dfy`: the records.
- `storage.dfy`: `localStorage`.
- `api.dfy`, `auth_context.dfy`, `volunteer_dashboard.dfy`, `community_page.dfy`, `opportunity_modal.dfy`, `organization_dashboard.dfy`: one per source file.

## Model

| member | source | states |
|---|---|---|
| Json.Truthy | src/components/OpportunityModal.tsx:29-36 | JavaScript truthiness, which `x || default` tests: `null`, `false`, `0` and `""` are falsy; every array and object is truthy |
| Json.Strings | src/components/OpportunityModal.tsx:48-52 | a list of skills becomes a JSON array holding the same strings at the same positions |
| Text.Lower | src/pages/VolunteerDashboard.tsx:57-59 | `toLowerCase` keeps the length and lowers each character by itself |
| Text.LowerIdempotent | src/pages/VolunteerDashboard.tsx:57-58 | lowering lowered text changes nothing |
| Text.Includes | src/pages/VolunteerDashboard.tsx:57-62 | `s.includes(sub)`: `sub` is a prefix of `s` or is included in its tail; IncludesIff gives it as an occurrence at some index |
| Text.IncludesIff | src/pages/VolunteerDashboard.tsx:57-60 | `includes` holds exactly when the needle occurs at some index |
| Text.IncludesEmpty | src/pages/VolunteerDashboard.tsx:57 | every string includes the empty string |
| Text.Trim | src/pages/CommunityPage.tsx:77 | the result of `trim` neither starts nor ends with whitespace |
| Text.TrimCut | src/pages/CommunityPage.tsx:77 | what `trim` keeps is a slice of the input, and everything cut off on either side is whitespace |
| Text.TrimUnique | src/pages/CommunityPage.tsx:77 | any cut of the input into whitespace, a trimmed middle and whitespace is the one `trim` makes |
| Text.TrimLeadingSpace | src/components/OpportunityModal.tsx:48 | a space after a comma makes no difference to the trimmed piece |
| Text.TrimEmptyIff | src/pages/CommunityPage.tsx:77 | a text trims to "" exactly when it is all whitespace |
| Text.TrimTrailingSpace | src/components/OpportunityModal.tsx:48 | a space typed after a trimmed text is trimmed away again |
| Text.Split | src/components/OpportunityModal.tsx:48 | `split` on one character gives one piece more than there are separators, and no piece holds the separator |
| Text.JoinSplit | src/components/OpportunityModal.tsx:48 | joining the pieces of a split with the separator gives the text back |
| Text.Join | src/components/OpportunityModal.tsx:179 | `xs.join(sep)`: "" for no pieces, the piece itself for one, and otherwise the first piece, the separator and the join of the rest |
| Text.SplitJoin | src/components/OpportunityModal.tsx:179 | splitting a joined non-empty list whose pieces hold no separator gives the list back |
| Lists.Keep | src/pages/VolunteerDashboard.tsx:56-65 | `filter` keeps exactly the elements satisfying the test, each as many times as the input holds it, and nothing else |
| Lists.KeepIsSubsequence | src/pages/CommunityPage.tsx:45-47 | `filter` keeps the input's order: its result is a subsequence of the input |
| Lists.KeepConjunction | src/pages/VolunteerDashboard.tsx:64 | filtering by a conjunction equals filtering by one test and then by the other |
| Lists.KeepAll | src/pages/CommunityPage.tsx:45-47 | filtering with a test every element passes returns the input |
| Lists.KeepNone | src/pages/VolunteerDashboard.tsx:61-62 | filtering with a test no element passes returns nothing |
| Storage.HasValue | src/api.tsx:21 | `if (token)` and `!!getItem(key)` on a stored string: the key is present and its value is not "" |
| Storage.LocalStorage.GetItem | src/api.tsx:20 | `getItem` returns the stored value, or nothing when the key is absent |
| Storage.LocalStorage.SetItem | src/api.tsx:157-159 | `setItem` stores the value under the key and changes no other key |
| Storage.LocalStorage.RemoveItem | src/api.tsx:35-36 | `removeItem` removes the key and changes no other key |
| Api.IsPublicRoute | src/api.tsx:15-18 | `publicRoutes.some(route => config.url?.includes(route))`: the URL is present and includes one of the public routes; a missing URL is not public |
| Api.WithAuthHeader | src/api.tsx:14-27 | `Bearer <authToken>` is attached exactly when the URL includes no public route and a non-empty token is stored; no other header and no URL change |
| Api.BearerAttachedIff | src/api.tsx:19-23 | a request without an Authorization header gets one if and only if it is not public and a token is stored |
| Api.LeaderboardIsPublic | src/api.tsx:16-19 | a leaderboard request never carries the token |
| Api.InterceptRequest | src/api.tsx:14-27 | the request interceptor reads storage and returns the request `WithAuthHeader` describes |
| Api.AfterFailure | src/api.tsx:30-40 | a 401 removes `authToken` and `refreshToken` and keeps every other key, `userType` included; other failures keep storage unchanged |
| Api.Send | src/api.tsx:30-40 | the response interceptor passes every outcome on unchanged, and on failure leaves storage as `AfterFailure` says |
| Api.StoredText | src/api.tsx:157-158 | `setItem` on a reply field stores the field's text, and the text "undefined" when the field is missing |
| Api.WithSession | src/api.tsx:157-159 | after a successful auth call storage holds the token, refresh token and role, and every other key is unchanged |
| Api.WithoutSession | src/api.tsx:227-229 | logout removes exactly the three session keys |
| Api.LogoutAbsorbsFailure | src/api.tsx:230-236 | a failed logout request makes no difference to what logout leaves in storage |
| Api.Rethrown | src/api.tsx:214-217 | a failed login rethrows the response body exactly when there is a truthy one, and otherwise the error itself |
| Api.Register | src/api.tsx:154-165 | a success stores `token`, `refresh` and 'volunteer' and returns the reply; a failure is rethrown with storage as the interceptor left it |
| Api.Login | src/api.tsx:197-218 | a reply whose `user_type` is not 'volunteer' throws the not-a-volunteer message and writes nothing; otherwise `access`, `refresh` and 'volunteer' are stored |
| Api.OrganizationRegistrationBody | src/api.tsx:295-298 | the posted body is the form data with `username` set to the e-mail, every other field kept |
| Api.RegisterOrganization | src/api.tsx:292-312 | posts that body; a success stores `token`, `refresh` and 'organization'; a failure throws the response body or the error |
| Api.LoginOrganization | src/api.tsx:314-329 | no role check: a success stores `access`, `refresh` and 'organization' |
| Api.Logout | src/api.tsx:220-237 | the server is called exactly when a refresh token is stored; the three session keys are gone afterwards whether or not that call fails |
| Api.FetchProfile | src/api.tsx:167-185 | with no stored token it throws before any request; a 401 becomes the log-in message; other failures are rethrown |
| Api.RecommendedOrEmpty | src/api.tsx:351-363 | the result is never falsy: `data.volunteers` when truthy, otherwise `[]`, on errors too |
| Api.GetRecommendedVolunteers | src/api.tsx:351-363 | returns that fallback and never fails |
| Api.CreateOpportunityBody | src/api.tsx:377-381 | the posted body has `volunteers_registered` 0, `skills_required` kept only when it is an array (else `[]`), every other field kept |
| Api.CreateOpportunity | src/api.tsx:375-387 | posts that body and returns the created opportunity, or fails |
| AuthContext.Derive | src/contexts/AuthContext.tsx:16-17 | authenticated exactly when a non-empty `authToken` is stored; the role is the stored `userType` or none |
| AuthContext.AuthProvider.constructor | src/contexts/AuthContext.tsx:15-17 | the provider starts with the view derived from storage |
| AuthContext.AuthProvider.SetAuth | src/contexts/AuthContext.tsx:19-22 | `setAuth` overwrites both fields |
| AuthContext.AuthProvider.HandleStorageChange | src/contexts/AuthContext.tsx:26-29 | a storage event re-derives both fields from storage |
| AuthContext.ViewAfterVolunteerLogin | src/api.tsx:210-212 | the view a provider derives from the storage a volunteer login leaves (at start-up or on another tab's storage event) has the volunteer role and is authenticated unless the access token was empty |
| AuthContext.ViewAfterOrganizationLogin | src/api.tsx:321-323 | the view derived from the storage an organisation login leaves has the role 'organization' |
| AuthContext.ViewAfterUnauthorized | src/api.tsx:33-37 | the view derived from the storage a 401 leaves is logged out but keeps its role |
| AuthContext.ViewAfterLogout | src/api.tsx:227-229 | the view derived from the storage logout leaves is logged out with no role |
| AuthContext.UnauthorizedInSameTab | src/contexts/AuthContext.tsx:26-31 | a 401 in the provider's own tab clears the tokens but leaves the mounted view as it was, since the storage event fires only in other tabs and nothing calls `setAuth` |
| VolunteerDashboard.MatchesSearch | src/pages/VolunteerDashboard.tsx:57-58 | the lower-cased title or description includes the lower-cased search text |
| VolunteerDashboard.MatchesLocation | src/pages/VolunteerDashboard.tsx:59 | an empty location passes; otherwise the lower-cased location includes the lower-cased filter |
| VolunteerDashboard.MatchesDate | src/pages/VolunteerDashboard.tsx:60 | an empty date passes; otherwise the raw date text includes the filter, case-sensitively |
| VolunteerDashboard.MatchesSkills | src/pages/VolunteerDashboard.tsx:61-62 | no selected skill passes; otherwise some selected skill is exactly one the opportunity requires |
| VolunteerDashboard.Matches | src/pages/VolunteerDashboard.tsx:64 | an opportunity is shown when all four tests pass |
| VolunteerDashboard.FilteredOpportunities | src/pages/VolunteerDashboard.tsx:56-65 | the shown opportunities are exactly those matching all four criteria, in their original order, each as often as it was loaded |
| VolunteerDashboard.InitialFiltersShowAll | src/pages/VolunteerDashboard.tsx:10-15 | with the initial filters every loaded opportunity is shown |
| VolunteerDashboard.SingleCriterion | src/pages/VolunteerDashboard.tsx:57-62 | a filter with one criterion set tests exactly that criterion |
| VolunteerDashboard.CombinedIsIntersection | src/pages/VolunteerDashboard.tsx:64 | filtering by all criteria equals filtering by each criterion in turn |
| VolunteerDashboard.SearchIgnoresCase | src/pages/VolunteerDashboard.tsx:57-58 | the search text matches the same opportunities in any letter case |
| VolunteerDashboard.UnofferedSkillsShowNothing | src/pages/VolunteerDashboard.tsx:61-62 | selecting only skills no opportunity requires shows nothing |
| VolunteerDashboard.BeachSearchExample | src/pages/VolunteerDashboard.tsx:56-65 | searching "beach" over a beach clean-up and a tutoring session keeps only the clean-up |
| VolunteerDashboard.ApplyButtonFor | src/pages/VolunteerDashboard.tsx:209-214 | the button is disabled and reads 'Opportunity Full' exactly when the registered count has reached the number needed |
| VolunteerDashboard.Dashboard.constructor | src/pages/VolunteerDashboard.tsx:8-19 | the page starts empty, loading, with the initial filters and no notification |
| VolunteerDashboard.Dashboard.SetFilters | src/pages/VolunteerDashboard.tsx:112 | typing into a filter changes only the filters |
| VolunteerDashboard.Dashboard.ShowNotification | src/pages/VolunteerDashboard.tsx:51-54 | the notification is set and nothing else changes |
| VolunteerDashboard.Dashboard.LoadOpportunities | src/pages/VolunteerDashboard.tsx:27-38 | a success replaces the list; a failure keeps it and shows the load error; `loading` ends false either way; storage follows the response interceptor |
| VolunteerDashboard.Dashboard.HandleApply | src/pages/VolunteerDashboard.tsx:40-49 | a success shows the success notice and reloads; a failure shows the error notice and does not reload; storage follows the response interceptor for each call made |
| VolunteerDashboard.Dashboard.ClickApply | src/pages/VolunteerDashboard.tsx:207-209 | the button exists only for a shown opportunity; a full opportunity's button issues no request and changes nothing; an enabled one applies for that opportunity's id, with `handleApply`'s notification, list, `loading` and storage |
| CommunityPage.FilteredPosts | src/pages/CommunityPage.tsx:45-47 | 'all' shows every post; any other category shows exactly the posts of that category, in order, none dropped |
| CommunityPage.WithLikes | src/pages/CommunityPage.tsx:64-68 | only posts with the liked id take the server's count; all others and the order are kept |
| CommunityPage.LikeOfAbsentPost | src/pages/CommunityPage.tsx:64-68 | a like for a post not in the list changes nothing |
| CommunityPage.LikeIdempotent | src/pages/CommunityPage.tsx:61-72 | applying the same like reply twice equals applying it once |
| CommunityPage.Page.constructor | src/pages/CommunityPage.tsx:16-21 | the page starts with no posts, category 'all', nothing expanded and no inputs |
| CommunityPage.Page.LoadPosts | src/pages/CommunityPage.tsx:24-34 | a success replaces the posts; a failure changes nothing but what the response interceptor removes from storage |
| CommunityPage.Page.SetCreateModalOpen | src/pages/CommunityPage.tsx:157 | the create button and the modal's close change only `isCreateModalOpen` |
| CommunityPage.Page.SelectCategory | src/pages/CommunityPage.tsx:175 | choosing a category changes only the selected category |
| CommunityPage.Page.HandleCreatePost | src/pages/CommunityPage.tsx:49-59 | after a create and a refetch the posts are replaced and the modal closes; if either fails the page state is unchanged; no refetch follows a failed create; storage follows the response interceptor |
| CommunityPage.Page.HandleLike | src/pages/CommunityPage.tsx:61-72 | a success updates only the liked post's count; a failure leaves the page state unchanged; storage follows the response interceptor |
| CommunityPage.Page.SetCommentInput | src/pages/CommunityPage.tsx:276-280 | typing in one post's comment box changes only that post's entry |
| CommunityPage.Page.HandleComment | src/pages/CommunityPage.tsx:74-90 | a missing or whitespace-only comment sends nothing and changes nothing; otherwise the text is sent as typed, and after a success and refetch the posts are replaced and only that box is cleared; storage follows the response interceptor for each call made |
| CommunityPage.Page.ToggleComments | src/pages/CommunityPage.tsx:92-104 | the expanded post collapses without a request; any other post becomes the one expanded, and its comments are stored when the fetch succeeds; storage follows the response interceptor |
| OpportunityModal.InitialForm | src/components/OpportunityModal.tsx:28-37 | each of the eight fields takes the initial value when that is truthy, else its default; no other key is copied |
| OpportunityModal.ZeroVolunteersNeededStartsAtOne | src/components/OpportunityModal.tsx:33 | an initial `volunteers_needed` of 0 is falsy, so the form starts at 1 |
| OpportunityModal.ParseSkills | src/components/OpportunityModal.tsx:48 | one skill per comma plus one, each trimmed and comma-free |
| OpportunityModal.ParseEmptyText | src/components/OpportunityModal.tsx:48 | an empty skills text parses to one empty skill, not to no skills |
| OpportunityModal.ParseShownSkills | src/components/OpportunityModal.tsx:179 | the shown `join(', ')` text parses back to the list, for a non-empty list of trimmed, comma-free skills |
| OpportunityModal.EmptySkillsDoNotRoundTrip | src/components/OpportunityModal.tsx:179 | the empty list is shown as "" and parses back to one empty skill |
| OpportunityModal.TypedSpaceIsLost | src/components/OpportunityModal.tsx:47-53 | a space typed after the shown skills parses back to the same list, so the field never shows it |
| OpportunityModal.TypedSkillsTextSubmitted | src/components/OpportunityModal.tsx:59-60 | skills kept as text are parsed on submit |
| OpportunityModal.FirstAidIsKept | src/components/OpportunityModal.tsx:59-60 | a skill with an inner space, typed as text, reaches submission whole |
| OpportunityModal.Submitted | src/components/OpportunityModal.tsx:57-62 | a string `skills_required` is replaced by its parsed list; any other value, and every other field, is passed on as it is |
| OpportunityModal.Modal.constructor | src/components/OpportunityModal.tsx:22-37 | the form starts from the initial data and defaults; `isOpen` is a prop, not modal state |
| OpportunityModal.Modal.Render | src/components/OpportunityModal.tsx:67 | with the `isOpen` prop false the modal renders nothing; otherwise it shows the form |
| OpportunityModal.Modal.HandleChange | src/components/OpportunityModal.tsx:39-45 | the named field takes the typed text; no other field changes |
| OpportunityModal.Modal.HandleSkillsChange | src/components/OpportunityModal.tsx:47-53 | the skills become the parsed list of the typed text |
| OpportunityModal.Modal.HandleSkillsText | src/components/OpportunityModal.tsx:59-61 | the corrected skills input keeps the text as typed |
| OpportunityModal.Modal.HandleSubmit | src/components/OpportunityModal.tsx:55-65 | `onSubmit` with the processed data, then `onClose`, each once and in that order |
| OrganizationDashboard.AdjacentIsNewestFirst | src/pages/OrganizationDashboard.tsx:78-80 | an array whose neighbours are ordered by `created_at` is ordered throughout |
| OrganizationDashboard.InsertNewest | src/pages/OrganizationDashboard.tsx:78-80 | one pass of the sort extends the newest-first prefix by one element and keeps the same opportunities |
| OrganizationDashboard.SortNewestFirst | src/pages/OrganizationDashboard.tsx:78-80 | the in-place sort leaves the array newest first and a permutation of what it held |
| OrganizationDashboard.Normalise | src/pages/OrganizationDashboard.tsx:54-61 | the reply itself when it is an array, else an empty list |
| OrganizationDashboard.RecommendedVolunteersShown | src/pages/OrganizationDashboard.tsx:48-67 | the shown volunteers are the reply's `volunteers` array when there is one, else none, an error included |
| OrganizationDashboard.SubmittedSkillsReachServer | src/api.tsx:380 | skills the modal submits as text reach the server as their parsed list, never replaced by `[]` |
| OrganizationDashboard.Dashboard.constructor | src/pages/OrganizationDashboard.tsx:40-46 | the dashboard starts empty, loading, with the modal closed |
| OrganizationDashboard.Dashboard.FetchOpportunities | src/pages/OrganizationDashboard.tsx:73-88 | a success makes the list the fetched opportunities, newest first; a failure keeps it |
| OrganizationDashboard.Dashboard.HandleAddOpportunity | src/pages/OrganizationDashboard.tsx:90-97 | a created opportunity is appended at the end, earlier ones unchanged and in order; a failure changes nothing |
| OrganizationDashboard.Dashboard.FetchRecommendedVolunteers | src/pages/OrganizationDashboard.tsx:48-71 | the list becomes the normalised reply and `loading` ends false in every case |
| OrganizationDashboard.Dashboard.OpenModal | src/pages/OrganizationDashboard.tsx:156 | the create button opens the modal and changes nothing else |
| OrganizationDashboard.Dashboard.CloseModal | src/pages/OrganizationDashboard.tsx:334 | `onClose` closes the modal and changes nothing else |
| OrganizationDashboard.Dashboard.SubmitModal | src/pages/OrganizationDashboard.tsx:333-335 | submitting the open modal posts the processed form, appends the created opportunity on success, closes the modal, and leaves storage as the response interceptor does |

## Left out

- Rendering, animation, the spotlight gradient, routing and the `console` logging are not modelled.
- The axios transport, the base URL and the default headers are not modelled. Each call's outcome is a parameter of the operation that awaits it.
- Asynchrony is not modelled: each handler runs to completion with the replies it awaits. Overlapping handlers, and state read from a stale render (`posts` in `handleLike`, `opportunities` in `handleAddOpportunity`), are not modelled.
- VolunteerDashboard.Dashboard.ShowNotification: the three-second timer that clears the notification is not modelled.
- Text.Lower: `toLowerCase` is modelled for ASCII letters only; other scripts' case mappings are left out.
- Numbers are integers. JavaScript floating point, `NaN` and the `Date` parsing of `created_at` are left out, and `created_at` is an integer instant.
- OrganizationDashboard.SortNewestFirst: JavaScript's `sort` is stable, but the order of opportunities with equal `created_at` is not stated.
- The request bodies of `login`, `loginOrganization`, `logout` and `register` are not modelled. Only the bodies the client computes (`registerOrganization`, `createOpportunity`) are.
- The `data.message` branch and the `catch` of the organization dashboard's recommended-volunteers fetch are not modelled as separate cases. `getRecommendedVolunteers` never fails and never returns a non-array falsy value, and both branches give `[]` anyway.
- Withdrawing from an opportunity is not modelled. The dashboard keeps no applied/withdrawn state, and the withdraw call (src/api.tsx:432-440) is never made from it.
- A 401 removes only `authToken` and `refreshToken` (src/api.tsx:35-36); `userType` stays (`AuthContext.ViewAfterUnauthorized`). In the tab that received the 401 the mounted provider keeps its view (`AuthContext.UnauthorizedInSameTab`); only a later start-up or another tab's storage event derives the logged-out view.
- Api.StoredText: a reply field that is JSON `null` is stored by `setItem` as the text "null", but the model folds `null` into a missing field and stores "undefined" for both. Other non-string field values are not modelled either.
- Opportunity details, profile pages, the leaderboard and the other pages are not part of this model.

## Findings

| source | as written | input that shows it | evidently intended | confidence | as-written member | corrected member |
|---|---|---|---|---|---|---|
| src/components/OpportunityModal.tsx:47-53 | the skills input shows `skills_required.join(', ')` and parses every keystroke back into a trimmed list, so a space typed at the end of the field is removed at once | skills `["first"]` shown as "first"; typing a space gives "first ", which parses back to `["first"]`, so "first aid" cannot be typed in order | keep the typed text and parse it on submit, which the string branch of `handleSubmit` (lines 59-61) already does | high, not executed | OpportunityModal.TypedSpaceIsLost | OpportunityModal.Modal.HandleSkillsText |
