# Voting app, modelled in Dafny

A model of a minimal voting application. The backend (`backend/server.js`) keeps one record per
voting option in a `Vote` collection. It fills the collection with the three allowed options at
count zero when the collection starts out empty. `POST /api/vote` checks the option against the
allow-list and then increments that option's record. `GET /api/votes` folds the records into an
object that maps each option to its count. The single-page client (`frontend/src/App.jsx`) walks a
user from a login page to a voting page and a results page. It keeps a local "has voted" flag,
and on the results page it shows the total and the entries sorted by count.

Files:

- `maybe.dfy`: module `Maybe`, the `Option` type both sides use.
- `vote_server.dfy`: module `VoteServer`.
  - The collection is the class `VoteCollection`, whose field `records` is the sequence of documents in their natural order.
  - The seeder and both handlers are methods on it.
  - The seed documents, the fold of the GET handler and the `$inc` are functions, with lemmas that connect them.
  - A database failure is a boolean input, and every failure path leaves `records` unchanged.
- `client_view.dfy`: module `ClientView`, the pure computations of the client. These are `trim` and the login check, the total, the sort by count and the keys shown as buttons. The `votes` object is the sequence of its entries in insertion order.
- `client_app.dfy`: module `ClientApp`, the `App` component as the class `App`.
  - Its fields are `page`, `username`, `votes`, `hasVoted` and `isLoading`.
  - Its handlers are methods. A handler that awaits a request is split at the `await` into the step that sends it and the step that runs when it settles, and other steps may run in between.
  - Ghost fields pair each settle step with an earlier send. `posted` lists the options this client has posted, `settled` and `answered` count the POSTs that have settled and those that got a reply, and `pendingFetches` counts GETs in flight. A POST can settle only while one is pending, and a GET can finish only while one is in flight.
  - The outcome of every `fetch` is an input: a GET delivers a body or throws, and a POST gets some reply or throws.

Three behaviours of the code that the model keeps:

- Logging in does not fetch the tally (App.jsx:121-124). The client fetches on mount, after a vote is answered, when the results page is opened, and on refresh.
- A vote for an allowed option that has no record returns 200 and changes nothing, because the increment at server.js:70 has no upsert.
- A failed seeding is only logged (server.js:42-45), and the model leaves the collection as it was.

## Model

| member | source | states |
|---|---|---|
| VoteServer.VotingOptions | backend/server.js:31 | The allow-list: "Option A", "Option B" and "Option C". InitializeDatabase proves them distinct, and OptionDIsRefused shows a string outside them. |
| VoteServer.IsAllowed | backend/server.js:65 | `VOTING_OPTIONS.includes(option)`: a present option that is on the allow-list. CastVote answers 400 exactly when it is false. |
| VoteServer.UniqueOptions | backend/server.js:24 | The `unique: true` index on `option`: no two records hold the same option. Every VoteCollection method keeps it, IncrementKeepsStore proves a vote keeps it, and InitializeDatabase proves the seed of the allow-list satisfies it. |
| VoteServer.Seed | backend/server.js:38 | The seed documents: one per option in list order, each with count zero. |
| VoteServer.Tally | backend/server.js:53-56 | The left-to-right `reduce` of the records into an object. TallyKeys gives its key set and TallyLastWriterWins its values. |
| VoteServer.Increment | backend/server.js:70 | The `$inc` without upsert on the first matching record. It keeps the number of records; IncrementAt, IncrementMissing and IncrementKeepsStore state its effect. |
| VoteServer.TallyKeys | backend/server.js:53-56 | The object built by the GET fold has a key for exactly the options some record holds. |
| VoteServer.TallyLastWriterWins | backend/server.js:53-56 | For each option, the fold keeps the count of the last record that holds it. |
| VoteServer.SeedIsFreshTally | backend/server.js:31-41 | When the seed records of a list of options satisfy the unique index, they have no negative count and hold exactly the listed options. The GET object then maps each listed option, and nothing else, to 0. |
| VoteServer.IncrementMissing | backend/server.js:70 | Without upsert, an increment for an option no record holds leaves every record unchanged. |
| VoteServer.IncrementAt | backend/server.js:70 | Under the unique index, the increment adds one to the record of the voted option and leaves every other record as it was. |
| VoteServer.IncrementKeepsStore | backend/server.js:70 | A vote keeps the option set and the unique index, and keeps every count non-negative. |
| VoteServer.TallyAfterVote | backend/server.js:49-75 | After a vote, GET reports the same keys. The voted option has one more vote and every other count is unchanged. |
| VoteServer.TallyAfterVoteAt | backend/server.js:49-75 | For the option of any one record: GET has it before and after the vote, with one more vote after if it is the voted option and the same count otherwise. |
| VoteServer.VoteCollection.constructor | backend/server.js:23-28 | A new collection is empty and satisfies the store invariant. |
| VoteServer.VoteCollection.InitializeDatabase | backend/server.js:33-46 | The seeder only acts on an empty collection. A non-empty collection, or a database failure, leaves the records unchanged. Otherwise the records become the seed and GET reports every allowed option at 0. The store invariant is kept. |
| VoteServer.VoteCollection.CastVote | backend/server.js:63-75 | An option outside the allow-list gets 400 and changes nothing. A database failure gets 500 and changes nothing. Otherwise the reply is 200 and the records are the increment of the old ones. The option set is unchanged, GET shows +1 for that option and no other change, and an allowed option without a record changes nothing. The store invariant is kept. |
| VoteServer.VoteCollection.GetVotes | backend/server.js:49-61 | Changes nothing. Gives 500 exactly when the database fails. Otherwise the object has the stored options as keys, maps each record's option to that record's count, and is the fold of the records. |
| VoteServer.VoteCollection.ReadTwice | backend/server.js:49-61 | Two reads with no vote in between report the same object. |
| VoteServer.SeedScenario | backend/server.js:31-61 | After seeding an empty collection, GET reports `{"Option A": 0, "Option B": 0, "Option C": 0}`. |
| VoteServer.VoteScenario | backend/server.js:63-75 | On the seeded collection, a vote for "Option A" gets 200 and GET then reports A:1, B:0, C:0. A vote for "Option D" then gets 400 and the report is unchanged. |
| VoteServer.OptionDIsRefused | backend/server.js:65-67 | "Option D" is not on the allow-list. |
| VoteServer.SeededTally | backend/server.js:38 | The all-zero object over the allowed options is the literal three-key object. |
| VoteServer.VotedTally | backend/server.js:70 | One vote for "Option A" on the all-zero object gives A:1, B:0, C:0. |
| ClientView.IsWhiteSpace | frontend/src/App.jsx:10 | The code points `trim` removes: the ECMAScript WhiteSpace and LineTerminator characters. Trim, TrimStripsEnds and LoginName are stated in terms of it. |
| ClientView.SkipSpace | frontend/src/App.jsx:10 | The first position that is not white space: everything before it is white space. |
| ClientView.SkipSpaceBack | frontend/src/App.jsx:10 | The end of the trailing run of white space: everything after it is white space and the character before it is not. |
| ClientView.Trim | frontend/src/App.jsx:10 | Trimming never lengthens a string. The result is empty exactly when every character is white space, and otherwise neither starts nor ends with white space. |
| ClientView.TrimStripsEnds | frontend/src/App.jsx:10 | Trim is exactly the middle part of any split into a white-space prefix, a middle that is empty or starts and ends with something else, and a white-space suffix. |
| ClientView.TrimIdempotent | frontend/src/App.jsx:10 | Trimming a trimmed string changes nothing. |
| ClientView.LoginName | frontend/src/App.jsx:8-11 | A name is handed on exactly when the input holds a character that is not white space. That name is the trimmed input, is non-empty, and is its own trim. |
| ClientView.TotalVotes | frontend/src/App.jsx:61 | With no negative counts, the total is non-negative. |
| ClientView.TotalVotesAppend | frontend/src/App.jsx:61 | The total of two lists joined together is the sum of their totals. |
| ClientView.TotalVotesSnoc | frontend/src/App.jsx:61 | Adding one entry at the end adds its count to the total. |
| ClientView.TotalVotesRemove | frontend/src/App.jsx:61 | Taking one entry out takes its count off the total. |
| ClientView.TotalVotesPermutation | frontend/src/App.jsx:61 | The total does not depend on the order of the entries. |
| ClientView.CountWithinTotal | frontend/src/App.jsx:61-70 | With no negative counts, every count lies between 0 and the total. |
| ClientView.InsertByCount | frontend/src/App.jsx:67-68 | Inserting one entry into the sorted prefix makes the list one longer. |
| ClientView.InsertByCountPermutes | frontend/src/App.jsx:67-68 | Insertion adds exactly that entry and loses nothing. |
| ClientView.InsertByCountSorted | frontend/src/App.jsx:67-68 | Inserting into a list ordered by count, highest first, keeps it ordered. |
| ClientView.SortByCount | frontend/src/App.jsx:67-68 | The sorted entries are ordered by count, highest first, and are a permutation of the input. |
| ClientView.WithCountAppend | frontend/src/App.jsx:67-68 | Selecting the entries of one count distributes over joining two lists. |
| ClientView.WithCountNone | frontend/src/App.jsx:67-68 | A list whose counts are all below `c` has no entry of count `c`. |
| ClientView.WithCountFront | frontend/src/App.jsx:67-68 | Selecting the entries of one count distributes over putting one entry in front. |
| ClientView.InsertByCountStable | frontend/src/App.jsx:67-68 | Insertion places the new entry after every entry of its own count. |
| ClientView.SortByCountStable | frontend/src/App.jsx:67-68 | For every count, the entries with that count keep their relative order, because the comparator sort is stable. |
| ClientView.SortKeepsTotal | frontend/src/App.jsx:61-68 | Sorting for display changes neither the total nor which entries are shown. |
| ClientView.OptionKeys | frontend/src/App.jsx:152 | The vote buttons are the keys of `votes`, one per entry, in order. |
| ClientApp.PageStep | frontend/src/App.jsx:121-161 | The page moves the handlers make: stay, login to vote (App.jsx:123), vote to results (App.jsx:143), results back to vote (App.jsx:161). Every handler's contract states its move is one of these. |
| ClientApp.NeverBackToLogin | frontend/src/App.jsx:121-161 | In any run of page moves the handlers allow, once the page is past login it never returns to login. |
| ClientApp.App.Valid | frontend/src/App.jsx:100-144 | The invariant every handler keeps. On the login page there is no name and nothing has been posted; past it, the name is non-empty and trimmed. No more POSTs settle than were sent, and `hasVoted` holds exactly when some POST of this client got a reply. |
| ClientApp.App.constructor | frontend/src/App.jsx:100-104 | The initial state: login page, empty name, no votes, not voted, loading, and no request sent. |
| ClientApp.App.StartFetch | frontend/src/App.jsx:106-109 | The part of `fetchVotes` before its `await`: loading starts, one more GET is in flight, and nothing else changes. |
| ClientApp.App.FinishFetch | frontend/src/App.jsx:110-116 | Runs only while a GET is in flight, and settles it. A delivered body replaces `votes` and a thrown fetch keeps the old ones. Loading is over either way, and page, name and the voted flag are unchanged. |
| ClientApp.App.HandleLogin | frontend/src/App.jsx:121-124 | On the login page: sets the name and moves to the voting page, a permitted move. Nothing else changes. |
| ClientApp.App.SubmitLogin | frontend/src/App.jsx:8-11 | On the login page, an input that is all white space changes nothing. Any other input logs in with its trimmed form. Votes, voted flag and loading are unchanged. |
| ClientApp.App.SendVote | frontend/src/App.jsx:126-133 | The part of `handleVote` before its `await`: nothing is sent exactly when the user has already voted, and otherwise the clicked option is posted. The only change is that a sent option is added to `posted`, so `hasVoted` stays false while the POST is pending. |
| ClientApp.App.VoteSettled | frontend/src/App.jsx:134-138 | Runs only while a POST of this client is pending, and settles it. Any reply, 400 and 500 included, sets the voted flag and starts a refresh, and a thrown POST leaves the flag and loading as they were. The flag never goes back to false, and page, name and votes are unchanged. |
| ClientApp.App.ShowResults | frontend/src/App.jsx:141-144 | From the voting page: starts a refresh without waiting for it and shows the results page. Name, votes and the voted flag are unchanged. |
| ClientApp.App.GoBack | frontend/src/App.jsx:161 | Moves from the results page back to the voting page and changes nothing else. |
| ClientApp.VoteAfterReply | frontend/src/App.jsx:126-139 | After logging in, a vote whose POST has been answered, followed by a second click, posts the first vote and sends nothing for the second. |
| ClientApp.VoteBeforeReply | frontend/src/App.jsx:126-139 | After logging in, a second click before the first POST settles passes the `hasVoted` guard and posts a second vote. |

## Left out

- Express routing, CORS, JSON body parsing, `dotenv`, `listen` and the database connection (backend/server.js:1-20, 78-80) are plumbing and are not modelled.
- Atomicity of `$inc` under concurrent requests is not modelled. Every handler runs alone, so the "no lost updates with N concurrent votes" property is out of scope.
- VoteServer.VoteCollection.InitializeDatabase: a failure part-way through `insertMany` may leave some documents inserted. The model treats any database failure as changing nothing.
- VoteServer.VoteCollection.CastVote: a request body whose `option` is missing or is not a string is the `None` input. A non-string value is never on the allow-list, so it also gets 400.
- HTTP details beyond the 200, 400 and 500 statuses, and the JSON `message` bodies, are not modelled.
- JavaScript numbers are unbounded integers here. Precision loss beyond 2^53 is not modelled.
- The key order of JavaScript objects is insertion order here. Keys that look like array indices, which JavaScript orders first, cannot occur with the allowed options.
- ClientApp.App.FinishFetch: `fetch` does not throw on a 500 reply, so JavaScript stores the error body `{message}` as `votes`. The model's GET outcome is a list of entries or a throw, so that case becomes a delivered list.
- React rendering and `useEffect` scheduling are not modelled. State updates take effect at once, not at the next render. The mount fetch is an ordinary StartFetch, and several fetches may be pending at once: each FinishFetch clears `isLoading`, as each `finally` does.
- The `disabled` attributes of the vote buttons (App.jsx:41) and of the refresh button (App.jsx:90) are rendering and are not modelled. The vote buttons are not disabled while the first POST is pending, and neither is the `hasVoted` guard: VoteBeforeReply shows the second vote that gets through. StartFetch has no guard, so a click on refresh while loading starts another fetch. The page preconditions of HandleLogin, SubmitLogin, SendVote, ShowResults and GoBack say which page shows each control.
- Percentages, `toFixed` and the label shown above 10% (App.jsx:70-79) use floating point and are not modelled.
- `API_URL` (App.jsx:2-3) is configuration.
