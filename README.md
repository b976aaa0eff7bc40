# brasfut-app: a Dafny model of its rules and state updates

brasfut-app is a small microblog. A React client talks to a Flask REST API. This
project models the parts of it that make decisions:

- **User registry** (backend): `/register` and `/login` over the `user` table. This
  covers required-field checks, the username and email uniqueness checks and their
  order, the status codes, the rollback of a failed commit, and the single reply for
  an unknown user or a wrong password.
- **Session** (`AuthProvider`): logged out or logged in, mirrored into two
  `localStorage` keys and restored from them at start-up. The restore goes through
  JavaScript's `parseInt`.
- **Profile page**: loading a profile and the viewer's follow status, following and
  unfollowing with the follower count moved by one, and liking or unliking a post.
  After a like or unlike, the refetched post replaces the listed one with the same id.
- **Post composer** and **comments dialog**: the ordered checks made before a request
  is sent (logged in, not blank, length limit), and how the form fields and messages
  change with the server's reply.
- **App shell**: the colour theme, with its default, its toggle and its persistence,
  and the route table for logged-in and logged-out users.

Server replies, network failures, the database commit's exception and the password
salt are inputs of the model. Each handler is modelled in two parts. A pure function
decides the handler's outcome, and its contract states the source's promises. A class
method performs the source's sequence of state updates, and its contract ties the new
state to that function.

Files, one module each: `wrappers.dfy` (Option), `posts.dfy` (the post record), `js_builtins.dfy` (`trim`,
`Number.prototype.toString`, `parseInt` without a radix, `a || b` on an optional
string), `local_storage.dfy`, `user_registry.dfy`, `auth_context.dfy`,
`profile_page.dfy`, `create_post.dfy`, `comment_modal.dfy`, `app.dfy`.

## Model

| member | source | states |
|---|---|---|
| `UserRegistry.SetPassword` | backend/app.py:55-59 | only the hash changes; for a sound hasher the new hash checks against the password (`check_password` after `set_password`) |
| `UserRegistry.CheckPassword` | backend/app.py:58-59 | a password checks against a stored hash that a sound hasher made from that same password, whatever the salt was |
| `UserRegistry.FirstMatch` | backend/app.py:144 | `.first()` gives the first row that matches, and no earlier row matches; none means no row matches |
| `UserRegistry.RegisterOutcome` | backend/app.py:99-130 | 400 exactly when a field is missing or empty. The username conflict (409) is reported before the email conflict (409). 500 exactly when the checks pass and the commit fails. Success (201) adds exactly one row with the given username, email, hashed password and a fresh id, and returns that id. Every other outcome leaves the table as it was, rollback included. Uniqueness of usernames and emails is preserved |
| `UserRegistry.Login` | backend/app.py:133-151 | 400 exactly when username or password is missing or empty. An unknown user gives 401, and so does a wrong password, with the same reply. Success returns the id and username of a stored user whose hash checks. On a table with unique usernames, 401 happens exactly when no user with that name has a matching password |
| `UserRegistry.RegisterThenLogin` | backend/app.py:119-151 | after a successful registration, logging in with the same username and password returns 200 with the registered id and username, given check(hash(p), p) |
| `UserRegistry.UserTable.constructor` | backend/app.py:29-33 | the table starts empty with ids from 1, and satisfies the uniqueness constraints |
| `UserRegistry.UserTable.Register` | backend/app.py:100-130 | the route's validate / query / add / commit-or-rollback sequence produces the table and reply of `RegisterOutcome`, and keeps the uniqueness constraints |
| `JsBuiltins.Trim` | frontend/src/components/CreatePost.js:20 | `trim()` is a slice of the text with only white space before and after it; it is empty exactly when the text is blank (only ECMAScript white space), and otherwise starts and ends with a non-space |
| `JsBuiltins.ParseInt` | frontend/src/context/AuthContext.js:23 | `parseInt` gives a number only for a string that holds a digit, and NaN otherwise |
| `JsBuiltins.ParseIntToString` | frontend/src/context/AuthContext.js:23-40 | `parseInt(id.toString())` gives back `id` for every integer id |
| `AuthContext.Restore` | frontend/src/context/AuthContext.js:18-26 | a session is taken over only when both stored keys are present and non-empty; the username is the stored one and the id is `parseInt` of the stored id. Otherwise the state does not change |
| `AuthContext.ReloadAfterLogin` | frontend/src/context/AuthContext.js:18-41 | after `login(id, user)` with a non-empty username, a reload restores a session with that same id and username |
| `AuthContext.ReloadAfterLogout` | frontend/src/context/AuthContext.js:46-52 | after `logout()`, a reload stays logged out |
| `AuthContext.LogoutUndoesLogin` | frontend/src/context/AuthContext.js:35-52 | `logout` after `login` leaves the store as `logout` alone would |
| `AuthContext.AuthProvider.constructor` | frontend/src/context/AuthContext.js:11-13 | the initial state is logged out with a null id and a null username |
| `AuthContext.AuthProvider.RestoreOnMount` | frontend/src/context/AuthContext.js:16-32 | a store that reads without error is left unchanged and the state becomes `Restore` of it. If reading fails, the whole store is cleared and the state is unchanged |
| `AuthContext.AuthProvider.Login` | frontend/src/context/AuthContext.js:35-43 | logged in with the given id and username; both keys written, the id as its decimal string |
| `AuthContext.AuthProvider.Logout` | frontend/src/context/AuthContext.js:46-54 | back to the initial state; both keys removed, nothing else in the store touched |
| `ProfilePage.IsOwnProfile` | frontend/src/components/ProfilePage.js:199 | the profile is the viewer's own only when logged in with an id equal to the profile's id; a null or NaN id never matches |
| `ProfilePage.OwnProfileAfterReload` | frontend/src/components/ProfilePage.js:199 | after logging in as `id` and reloading, a profile is the viewer's own exactly when its id is `id` |
| `ProfilePage.FetchProfile` | frontend/src/components/ProfilePage.js:21-57 | ends with `loading` false. A failed load keeps the previous profile, posts and follow flag and sets the error, which is 'Usuário não encontrado.' for a 404. A successful load installs the profile and posts. Logged out or on one's own profile, `isFollowing` becomes false. On another user's profile it takes the server's answer, or keeps the old flag and sets an error when that request fails |
| `ProfilePage.FollowRequestFor` | frontend/src/components/ProfilePage.js:63-83 | nothing is sent when logged out or with no profile loaded; otherwise the request is `follow` exactly when not following now, for the shown profile's id |
| `ProfilePage.FollowToggle` | frontend/src/components/ProfilePage.js:63-99 | logged out, only the error is set. With no profile loaded, nothing changes. A confirmed toggle flips `isFollowing` and moves `followers_count` by +1 on follow or -1 on unfollow, with no other field changed. A failed toggle changes neither, and the error is the server's message or the default |
| `ProfilePage.FollowTogglePreservesCount` | frontend/src/components/ProfilePage.js:90-94 | if the count is non-negative and counts the viewer while following, any toggle keeps it so |
| `ProfilePage.FollowToggleTwice` | frontend/src/components/ProfilePage.js:71-94 | two confirmed toggles give back the original state |
| `ProfilePage.LikeRequestFor` | frontend/src/components/ProfilePage.js:102-107 | nothing is sent when logged out; otherwise the endpoint is `unlike` exactly when the post is liked now |
| `ProfilePage.ReplaceById` | frontend/src/components/ProfilePage.js:127-129 | same length and order; each entry with the refreshed post's id becomes that post, every other entry is unchanged |
| `ProfilePage.ReplaceAbsentId` | frontend/src/components/ProfilePage.js:127-129 | a refreshed post whose id is not listed changes nothing |
| `ProfilePage.ReplaceIdempotent` | frontend/src/components/ProfilePage.js:127-129 | applying the same refreshed post twice is the same as applying it once |
| `ProfilePage.LikeToggle` | frontend/src/components/ProfilePage.js:102-136 | the posts change only after a confirmed toggle and a successful refetch, and then by replacement by id. Logged out, a failed toggle or a failed refetch leaves them unchanged |
| `ProfilePage.LikeAlert` | frontend/src/components/ProfilePage.js:103-135 | logged out gives the login alert. A rejected toggle gives the server's message or the default. A confirmed toggle whose refetch gets an HTTP error gives no alert |
| `ProfilePage.ProfileView.constructor` | frontend/src/components/ProfilePage.js:13-17 | no profile, no posts, loading, no error, not following |
| `ProfilePage.ProfileView.FetchUserProfileAndStatus` | frontend/src/components/ProfilePage.js:21-57 | the sequence of setters leaves the state `FetchProfile` describes |
| `ProfilePage.ProfileView.HandleFollowToggle` | frontend/src/components/ProfilePage.js:63-99 | sends `FollowRequestFor` and leaves the state `FollowToggle` describes |
| `ProfilePage.ProfileView.HandleLikeToggle` | frontend/src/components/ProfilePage.js:102-136 | sends `LikeRequestFor`, shows `LikeAlert`, sets the posts to `LikeToggle` of the old ones, and changes no other field |
| `CreatePost.TooLongMessage` | frontend/src/components/CreatePost.js:26 | the over-limit message contains the body's length in decimal |
| `CreatePost.PostRejection` | frontend/src/components/CreatePost.js:15-28 | logged out is rejected with the login message whatever the body. Then a blank body is rejected, then a body over 280 characters, with its length. The first failing check decides the message, and a body passes exactly when logged in, not blank and at most 280 characters long |
| `CreatePost.PostForm.constructor` | frontend/src/components/CreatePost.js:8-9 | empty body and message |
| `CreatePost.PostForm.Edit` | frontend/src/components/CreatePost.js:65 | the body becomes the typed text |
| `CreatePost.PostForm.HandleSubmit` | frontend/src/components/CreatePost.js:12-56 | no request exactly when `PostRejection` rejects, and then the message is the rejection and the body is kept. Otherwise the body is sent. On success the message is the server's, the body is cleared and `onPostCreated` receives the post if given. On a server error the body is kept and the message is 'Erro ao publicar post: ' plus the server's message. On a connection error the body is kept and the message is the connection message |
| `CommentModal.CommentRejection` | frontend/src/components/CommentModal.js:41-52 | logged out, blank and over 500 characters are rejected in that order. A comment passes exactly when logged in, not blank and at most 500 characters long |
| `CommentModal.LoadError` | frontend/src/components/CommentModal.js:20-26 | a non-OK reply shows 'Falha ao carregar comentários.' |
| `CommentModal.AddError` | frontend/src/components/CommentModal.js:60-63 | a rejected comment shows the server's message when it is non-empty, the default otherwise |
| `CommentModal.CommentPanel.constructor` | frontend/src/components/CommentModal.js:9-13 | no comments, empty input, loading, no errors |
| `CommentModal.CommentPanel.Edit` | frontend/src/components/CommentModal.js:105 | the input becomes the typed text, nothing else changes |
| `CommentModal.CommentPanel.FetchComments` | frontend/src/components/CommentModal.js:15-31 | always ends with `loading` false. On success the comments are replaced and the error cleared. On failure the comments are kept and the error set. The input and the add-comment error are untouched |
| `CommentModal.CommentPanel.HandleAddComment` | frontend/src/components/CommentModal.js:37-74 | each submit clears the previous add-comment error first. A rejected submit sends nothing and shows the rejection. On success the input is cleared, the comments are refetched and `onCommentAdded` receives the comment if given. On failure the input is kept and the error is the server's message or the default |
| `App.InitialTheme` | frontend/src/App.js:22-25 | the saved theme when it is non-empty, `'dark'` otherwise |
| `App.ToggleTheme` | frontend/src/App.js:32-34 | the result is always `'light'` or `'dark'` and differs from the input; it is `'dark'` exactly when the input is `'light'` |
| `App.ToggleTwice` | frontend/src/App.js:32-34 | from `'light'` or `'dark'`, two toggles give back the start value |
| `App.ToggleSettles` | frontend/src/App.js:32-34 | from any other value, one toggle gives `'light'`, and after that the theme alternates |
| `App.ThemeState.constructor` | frontend/src/App.js:22-30 | the theme starts as `InitialTheme` of the stored value, which is then written back under `appTheme` |
| `App.ThemeState.Toggle` | frontend/src/App.js:27-34 | the theme becomes its toggle, and the new value is stored under `appTheme` |
| `App.Route` | frontend/src/App.js:41-57 | logged out: `/` shows AuthPage and every other path redirects to `/`. Logged in: `/` shows HomePage, a profile is shown only for `/users/<one segment>` with that username, and `/login`, `/register` and every unmatched path redirect to `/`. AuthPage is never shown when logged in |
| `App.ProfileRoute` | frontend/src/App.js:53 | logged in, every `/users/<segment>` path shows that user's profile |
| `App.RedirectsResolve` | frontend/src/App.js:41-57 | every redirect target is a path that shows a page, so there is no redirect loop |

## Left out

- Network and page lifecycle: `fetch`, JSON parsing, async interleaving and stale
  replies are not modelled. Each reply is an input. A network error and an unreadable
  reply body are one input variant that carries the error's message.
- `fetchComments` after a new comment is not awaited in the source. The model runs it
  to completion before the handler returns.
- Rendering and JSX, `alert` and `console` are not modelled. The alert text of the
  like toggle is returned as a value.
- `window.confirm`, `handleDeletePost`, `handleCommentClick`, `handleCloseCommentModal`,
  `handleCommentAdded` and the stub `handleEditPost` are not modelled. They only open
  dialogs or refetch the whole profile.
- React Router's matching internals are not modelled. Routes are exact string matches:
  no trailing-slash, case-insensitive or percent-decoded matching of `/users/:username`.
  The `replace` flag of a redirect is not modelled.
- Password hashing is a pair of functions with one property, that a hash made from a
  password checks against it. werkzeug's algorithm is not modelled, and its random salt
  is a parameter.
- SQLite and SQLAlchemy are replaced by a sequence of rows in insertion order. A new
  row's id is the next value of a counter.
- The column lengths (`String(80)`, `String(120)`) are not modelled, because SQLite
  does not enforce them.
- Requests whose body is not JSON, and JSON fields that are not strings, are not
  modelled.
- Concurrent registrations are not modelled, so the race between the uniqueness query
  and the commit is not captured.
- Server messages are strings. A reply without a `message` field, which would put
  `undefined` into a message, is not modelled.
- Timestamps are not modelled: their defaults, which are evaluated once at class
  definition, and their `Date`/`toLocaleString` formatting.
- Text length is the length of a sequence of Unicode scalar values. JavaScript's
  `.length` counts UTF-16 code units, so characters outside the BMP count once here
  where the source counts them twice.
- White space is the ECMAScript WhiteSpace and LineTerminator set.
- `parseInt` results are exact integers. JavaScript's double-precision rounding of
  ids beyond 2^53 is not modelled.
- `document.body.className` is not modelled. The textarea `maxLength` attributes are
  also left out, because the handlers check the length themselves.
- `JsBuiltins.ParseInt`: its contract states only that a number requires a digit. Its
  full behaviour is fixed by its definition, and its round trip with `IntToString` is
  proved in `ParseIntToString`.
