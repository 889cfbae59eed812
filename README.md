# Social network backend core, modelled in Dafny

This project models the request handlers of a small social-network backend
written for Node.js with Express and Mongoose. There are three groups of
handlers:

- **Friends** (`controllers/friend.js`): send, accept and decline friend
  requests, remove a friend, and list pending requests and friends. Every
  user has one friend document, holding a `friends` list and a
  `friendRequests` list.
- **Posts** (`controllers/post.js` and `models/post.js`): create, fetch and
  delete posts, toggle a like, and add, remove and edit comments.
- **Users** (`controllers/user.js`, `models/user.js` and
  `middleware/isAdmin.js`): sign-up, username availability, login, email
  verification, the two steps of password reset, the user listing, and
  disabling or enabling an account.

Each Mongoose collection is a class holding a `map` from document id to
document: `Friends.FriendStore`, `Posts.PostStore` and `Users.UserStore`.
Each handler is a method of that class. The method returns
`Result.Ok(value)` for a 200 answer and `Result.Err(Error(status, message))`
for an error answer. The status and message are those the handler passes to
`CustomError`. A JavaScript exception, such as a property read on a `null`
document, a call to an undefined identifier, or a failed Mongoose
validation, ends in the generic error handler. The model writes that outcome
as `Fault`, which is status 500. Ids are strings. An empty string stands for
a request field that is missing or falsy.

Properties the model proves:

- Accepting a request and removing a friend keep friendship symmetric: if
  `b` is in `a`'s friend list, `a` is in `b`'s.
- A sent request is pending exactly once. The toggle removes every like of
  a user or adds exactly one. Toggling twice gives the likes back, and a
  like list with one entry per user stays that way.
- Removing a comment deletes exactly the comments with that id and keeps
  the order of the rest. Editing a comment changes only the texts of the
  comments with that id.
- Sign-up keeps email and username unique and stored in lower case.
- Login runs its checks in a fixed order, and the first failing check gives
  the answer.
- Password reset succeeds only with the stored, unexpired token, and a
  success clears the token.
- The user listing holds every account except the caller's, each once,
  newest first.

Following the code has two consequences that the model makes explicit:

- Sign-up never stores a verification token, so `emailVerification` cannot
  match a signed-up account. Every `UserStore` method keeps
  `NobodyVerifiable`, and `Users.NobodyLogsIn` then shows that no login can
  succeed.
- The role enum is `"user"`/`"root"`, but the admin gate tests for
  `"admin"`. The gate therefore turns every caller away, and the listing's
  role filter excludes nobody.

Error answers follow the handlers:

- Bad input is a 400 answer with the handler's own message.
- A missing friend document of the caller is a 500. A missing recipient in
  `sendFriendRequest` is a 400.
- An empty post is a 500, because the handler passes a plain string to
  `next`.
- `acceptFriendRequest` and `removeFriend` save the first document before
  they look up the second. If the second is missing, the first change stays
  and the answer is a 500.

## Model

| member | source | states |
|---|---|---|
| Common.RemoveAll | controllers/friend.js:123-125 | the `filter` that drops every occurrence of a value: exactly the other elements remain, with their multiplicities and order |
| Friends.AcceptKeepsSymmetry | controllers/friend.js:73-85 | accepting, which adds each user to the other's friend list, keeps the friend relation symmetric |
| Friends.AcceptOutcome | controllers/friend.js:73-85 | after accepting, the request is no longer pending and each user's friend list gets the other appended |
| Friends.RemoveKeepsSymmetry | controllers/friend.js:163-169 | removing every entry of each user from the other's friend list keeps the friend relation symmetric |
| Friends.FriendStore.SendFriendRequest | controllers/friend.js:6-47 | a missing id gives 400; an unknown recipient gives 400 "No user with that ID found"; a request already pending gives 400; otherwise the sender is appended to the recipient's requests and is then pending exactly once; symmetry is kept |
| Friends.FriendStore.AcceptFriendRequest | controllers/friend.js:50-95 | a missing id gives 400; a missing accepter document gives 500; a request that is not pending gives 400; otherwise the request is dropped and the requester is added to the accepter's friends, and then the accepter to the requester's; a missing requester document gives 500 with the first save kept; success keeps symmetry |
| Friends.FriendStore.DeclineFriendRequest | controllers/friend.js:98-137 | a missing id gives 400; a missing document gives 500; a request that is not pending gives 400; otherwise every entry of that requester leaves the pending list and the remaining list is returned |
| Friends.FriendStore.RemoveFriend | controllers/friend.js:140-178 | a missing id gives 400; a missing document gives 500; a non-friend gives 400; otherwise each user leaves the other's friend list, and a missing second document gives 500 with the first save kept; pending requests are untouched; success keeps symmetry |
| Friends.FriendStore.GetAllFriendRequests | controllers/friend.js:181-200 | returns the pending list with "Pending Friend Requests found" or "No pending friend request"; a missing document gives 500 |
| Friends.FriendStore.GetAllFriends | controllers/friend.js:203-220 | returns the friend list with "Friends Found" or "No Friends Found"; a missing document gives 500 |
| PostModel.ParseVisibility | models/post.js:28-32 | the enum accepts exactly "private" and "public" |
| PostModel.NewPost | models/post.js:4-41 | `Post.create` succeeds exactly when the visibility is absent or in the enum; likes and comments start empty, `isDisabled` false, and visibility defaults to public |
| PostModel.VisibilityIsEnumValue | models/post.js:28-32 | every stored visibility is one of the two enum names and parses back to itself |
| Posts.ToggleLike | controllers/post.js:101-113 | if the user is in the likes, every one of their entries is removed and the others keep their counts and order; otherwise exactly one entry is appended; afterwards the user has at most one entry |
| Posts.LikeMessage | controllers/post.js:120 | "Post Disliked" exactly when the user had liked the post, else "Post Liked" |
| Posts.ToggleTwiceRestores | controllers/post.js:101-113 | liking and then unliking gives the original likes back, answering "Post Liked" and then "Post Disliked" |
| Posts.ToggleKeepsLikesUnique | controllers/post.js:101-113 | if each user has at most one like entry, a toggle keeps it so |
| Posts.RemoveComments | controllers/post.js:172-174 | exactly the comments with the given id are removed; the others keep their counts and order; an absent id changes nothing |
| Posts.SetCommentText | controllers/post.js:203-208 | same length and order; ids, authors and dates kept; a text changes exactly where the id matches |
| Posts.SetCommentTextAbsentId | controllers/post.js:203-208 | an id no comment carries leaves the comments equal to what they were |
| Posts.PostStore.AddPost | controllers/post.js:6-30 | neither media nor caption gives 500; an out-of-enum visibility gives 500; otherwise the post with schema defaults is stored under a fresh id |
| Posts.PostStore.GetAllPosts | controllers/post.js:33-45 | returns every stored post under its own id, so equal posts stay distinct, with "Posts Found" or "No Posts Found" |
| Posts.PostStore.GetOnePost | controllers/post.js:48-65 | an unknown id gives 400 "No such post found"; otherwise returns the stored post |
| Posts.PostStore.DeletePost | controllers/post.js:68-85 | an unknown id gives 400 "No such post found"; otherwise the post is removed and returned |
| Posts.PostStore.LikePost | controllers/post.js:89-126 | an unknown post gives 400; a like whose user document is gone gives 500; otherwise the likes are toggled and the message tells which way |
| Posts.PostStore.AddComment | controllers/post.js:129-157 | empty text gives 400, checked before the lookup; an unknown post gives 400; otherwise one comment with an id no comment on the post carries, the author, the text and the schema's date is appended |
| Posts.PostStore.RemoveComment | controllers/post.js:160-186 | an unknown post gives 400 "Post does not exist"; otherwise the comments with that id are removed, with no author check |
| Posts.PostStore.UpdateComment | controllers/post.js:189-220 | an unknown post gives 400 "Post doesn't exist"; otherwise the texts of the comments with that id are replaced, with no author check |
| UserModel.ParseRole | models/user.js:31-35 | the role enum accepts exactly "user" and "root" |
| UserModel.NewUser | models/user.js:4-47 | a created account has role "user", the default picture, is neither verified nor disabled, and has no verification or reset token |
| UserModel.AdminIsNotARole | models/user.js:31-35 | "admin" is not in the role enum, so no account has that role |
| Users.Lower | controllers/user.js:20 | lowercasing keeps the length, lowers each letter, yields a lowercase string, and leaves a lowercase string as it is |
| Users.LowerIgnoresCase | controllers/user.js:20-30 | strings that differ only in letter case lower to the same string |
| Users.FindByEmail | controllers/user.js:99 | finds an account with the email exactly when one exists |
| Users.Login | controllers/user.js:90-140 | the checks run in this order: missing field (400), unknown lowercased email (401), not verified (401), disabled (403), wrong password (401); success names the verified, enabled account whose password is valid |
| Users.NobodyLogsIn | controllers/user.js:106-112 | while no account is verified, every login fails |
| Users.UsernameExists | controllers/user.js:70-87 | "Username available" exactly when no account has the lowercased username, else 400 "Username not available" |
| Users.AdminGate | middleware/isAdmin.js:3-10 | every caller is refused with 403, since no role equals "admin" |
| Users.ListedIsEveryoneButCaller | controllers/user.js:367-369 | the listing's filter selects every account except the caller's |
| Users.LatestExists | controllers/user.js:370-372 | a non-empty set of accounts has a newest member, the first one the sort places |
| Users.ListingStep | controllers/user.js:367-372 | moving the newest remaining account to the listing keeps it complete, duplicate-free and newest first |
| Users.UserStore.SignUp | controllers/user.js:12-67 | a missing field gives 400; a taken lowercased email, then username, gives 400; a malformed email gives 500 with nothing stored; otherwise the account is stored in lower case, and a failed profile creation gives 500 with no friend document, else an empty friend document is created; uniqueness is kept |
| Users.UserStore.EmailVerification | controllers/user.js:243-268 | an empty code gives 400; a code no account holds gives 401; otherwise that account becomes verified and loses its token; while no account holds a token it always fails |
| Users.UserStore.InitPasswordReset | controllers/user.js:273-305 | an empty email gives 400; an email not stored exactly as given gives 400, so mixed case always fails; otherwise the account's reset token and expiry are set |
| Users.UserStore.PerfPasswordReset | controllers/user.js:308-359 | a missing field gives 400; an unknown email gives 500; no token gives 400; an expiry earlier than now gives 400; a different token gives 400; otherwise the password is replaced and token and expiry cleared; success implies the stored token matched and had not expired |
| Users.UserStore.GetAllUser | controllers/user.js:363-382 | the summaries of exactly the accounts other than the caller's, each once, with createdAt non-increasing, and the message tells whether any was found |
| Users.UserStore.DisableUser | controllers/user.js:405-426 | an unknown id gives 500; otherwise only `isDisabled` becomes true |
| Users.UserStore.EnableUser | controllers/user.js:429-450 | an unknown id gives 500; otherwise only `isDisabled` becomes false |

## Left out

- E-mail delivery (`utils/mailer.js`) is not modelled. The mailer catches
  and logs a failed send, so the handlers still answer 200, as the model
  does. An exception from `createTransport`, which runs outside that catch,
  is not modelled.
- JWT authentication (`middleware/isAuth.js`) is left out. The caller's id
  is a parameter.
- `user.isPasswordValid` and `user.getJwt` are not defined in
  `models/user.js`. The model takes the password check as a function
  parameter of `Users.Login`, and leaves out the token.
- The random reset token, the expiry date and the clock are parameters.
  Fresh document ids are parameters required to be unused.
- The validity of the email format (`validator.isEmail`) and the outcome of
  `Profile.create` are boolean parameters of `SignUp`. Note that
  `models/profile.js` requires a `bio`, which sign-up does not pass.
- Routing, app setup and the database connection (`app.js`, `index.js`,
  `db.js`, `routes/`) are left out, and so is which routes are mounted. The
  error handler is reduced to the status it answers. A 500 answer's
  message is not modelled.
- `trendingPost` is left out. It refers to a variable it never defines.
- The feed's filtering by visibility and moderation is left out. It is not
  in the modelled handlers.
- `getUser`, `updateUser`, `getUserById` and `deleteUser` are not part of
  this model.
- Populating references in the read accessors is left out. `likePost`
  keeps only its effect: a like whose user is gone throws.
- Invalid ObjectId casts, `updatedAt` timestamps, concurrency, atomicity
  across saves, and races on the unique indexes are left out.
- Users.Lower: lowercases ASCII letters only, not all of Unicode.
- Users.UserStore.SignUp: does not model the `trim` setter on `username`.
  The stored username is the lowercased one, untrimmed.
- Users.UserStore.DisableUser: `models/user.js` declares no `isDisabled`
  path, and Mongoose's strict mode may drop the update. The model keeps
  the field, as the controllers use it.
- Friends.FriendStore.SendFriendRequest, AcceptFriendRequest,
  DeclineFriendRequest and GetAllFriendRequests: `models/friend.js`
  declares no `friendRequests` path, and Mongoose's strict mode may drop
  writes to it. The model keeps the list as `controllers/friend.js` uses it.
- Users.UserStore.EnableUser: the same `isDisabled` caveat as `DisableUser`.
- Posts.PostStore.GetAllPosts: the posts come back as a map from id to
  post, without the database's natural order.
- Users.UserStore.GetAllUser: the database's sort is modelled as a
  selection of the newest remaining account. Accounts with equal
  `createdAt` may appear in either order. Mongo's natural order is not
  modelled.
- Users.UserStore.EmailVerification: when several accounts hold the code,
  the model picks any one of them rather than the first in natural order.
