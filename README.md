# CTF blog core, modelled in Dafny

This project models the logic of a small Next.js blog for CTF write-ups. The blog publishes posts, records solved challenges ("achievements") and shows statistics about both. The model covers:

- **The two document schemas.** A post needs a non-empty `title` and `content`, and a `difficulty` and `category` from fixed enumerations. An achievement needs `ctfName`, `platform`, `challengeName`, the same two enumerations, and a `points` number with no bound. Validation runs the document mapper's `required` and `enum` validators path by path, and reports each failing path once, in schema order, with the mapper's default message.
- **`/api/posts`.**
  - `POST` guards on falsy required members (400 "Missing required fields").
  - It then fills defaults: a 150-character excerpt followed by "...", an author named `Anonymous` with image `/default-avatar.jpg`, and empty tag and image lists.
  - Store failures map to 400 "Validation error" with one message per failing path, to 409 for a duplicate key, or to 500.
  - `GET` returns every post, newest first.
- **`/api/stats`.**
  - The post count.
  - The `$group` breakdowns by category and by difficulty.
  - `totalCTFs`, which adds up the category counts.
- **`/api/achievements`.**
  - The count, the points total (the single `_id: null` group, or 0 when there are no achievements), and the three groupings with counts and points.
  - The ten most recently solved achievements.
  - A `POST` that stores the body as given, with every failure answered by the same 500.
- **The client pages**, modelled as classes whose methods change the component state:
  - The blog index, with its category/difficulty selection (each with an "All …" wildcard) and the local delete by id.
  - The write-ups page, which keeps only the five CTF categories.
  - The new-post form: adding a tag (Enter, trimmed, non-empty, not yet present), removing a tag, and the image upload that appends an image record and a markdown line. It numbers the submitted tag records by index with a palette colour, and sends its own excerpt and the owner as author.

The store is not modelled as a database. A collection is a `seq` of records, and the outcome of an insert is a parameter: `Inserted(id, timestamp)`, `DuplicateKey` or `StoreError(message)`. An exception thrown while connecting or reading the request body is a `failure: Option<string>` parameter. Timestamps are plain integers. The random tag colour is an oracle `pick: nat -> PaletteIndex`.

The `$group` stage returns its groups in an unspecified order, and a sort leaves ties in an unspecified order. The model produces groups in order of first appearance and sorts with an insertion sort. Its contracts state only what holds for every order: one group per key with exact counts and sums, and a sorted permutation.

The code beside the stats reduce talks about leaving out non-CTF posts. The code itself counts every category, `Misc` included. The model follows the code, so `StatsRoute.StatsTotalsAgree` proves that `totalCTFs` always equals `totalPosts`.

## Model

| member | source | states |
|---|---|---|
| Seqs.Keep | app/blog/page.tsx:42-45 | Array `filter`: the result is an ordered subsequence of the input and holds exactly the elements satisfying the predicate, each as often as in the input |
| Seqs.KeepIdempotent | app/blog/page.tsx:42-45 | filtering twice with the same predicate equals filtering once |
| Seqs.KeepAll | app/blog/page.tsx:42-45 | a predicate every element satisfies returns the whole sequence |
| Seqs.KeepNoDuplicates | app/blog/new/page.tsx:110-112 | filtering a duplicate-free sequence gives a duplicate-free sequence |
| Seqs.KeepCommutes | app/blog/page.tsx:34 | two filters applied in either order give the same sequence |
| Sorting.SortDesc | app/api/posts/route.ts:8 | descending sort on a numeric field: the result is sorted non-increasingly and is a permutation of the input |
| Sorting.Top | app/api/achievements/route.ts:56-58 | sort descending then limit n: length min(n, size), sorted, a sub-multiset, and every element left out has a key no larger than each kept one |
| Aggregate.GroupBy | app/api/achievements/route.ts:23-53 | `$group` with count and points: distinct keys, a group exactly for each key that occurs, and each group's count (never 0) and points equal those of its items |
| Aggregate.GroupByPartitions | app/api/achievements/route.ts:23-53 | the group counts add up to the number of items and the group points to the total weight |
| Aggregate.SumTalliesOfGroups | app/api/stats/route.ts:33 | the reduce over the `{_id, count}` entries equals the sum of the group counts |
| Aggregate.CountBy | app/api/stats/route.ts:13-30 | a counting `$group`: one entry per distinct key present, each count equal to the number of items with that key and never 0 |
| Aggregate.CountBySum | app/api/stats/route.ts:10-33 | the counts of a counting breakdown add up to the number of items |
| Aggregate.SharedKeyGrouping | app/api/achievements/route.ts:13-20 | grouping under a key every item shares yields at most one group, and that group holds the total weight |
| Text.Trim | app/blog/new/page.tsx:104 | `trim`: the result is a slice of the input between two all-whitespace ends (ECMAScript whitespace and line terminators) and is itself trimmed |
| Text.TrimTrimmed | app/blog/new/page.tsx:104-105 | trimming an already trimmed string changes nothing |
| Text.TrimIdempotent | app/blog/new/page.tsx:104-105 | `trim` is idempotent |
| Text.NatToString | app/blog/new/page.tsx:65 | `index.toString()`: a non-empty string of decimal digits without a leading zero |
| Text.DecimalValueOfNatToString | app/blog/new/page.tsx:65 | reading the decimal digits back gives the number |
| Text.NatToStringInjective | app/blog/new/page.tsx:64-68 | different indices give different strings |
| Text.DefaultExcerpt | app/api/posts/route.ts:33 | the first min(150, length) characters of the content followed by "...", so between 3 and 153 characters; characters are Unicode scalar values, not UTF-16 code units |
| BlogTypes.ParseCategory | models/BlogPost.ts:62-66 | accepts exactly the six category names and returns the category with that name |
| BlogTypes.ParseDifficulty | models/BlogPost.ts:57-61 | accepts exactly the three difficulty names and returns the difficulty with that name |
| Validation.RunChecksPaths | models/BlogPost.ts:35-70 | running the validators path by path reports the failing paths, each once, in schema order |
| Validation.CheckRequired | models/BlogPost.ts:36-43 | `required` on a string: the path is reported exactly when the value is missing or empty, and then as one `Required` error |
| Validation.CheckRequiredNumber | models/Achievement.ts:37-40 | `required` on a number: the path is reported exactly when the value is missing, as one `Required` error; 0 and negatives pass |
| Validation.CheckEnum | models/BlogPost.ts:57-66 | `required` then `enum`: a missing or empty value gives one `Required` error, a present but unlisted value one `NotInEnum` error carrying the value, and a listed value none |
| Validation.ErrorMessage | app/api/posts/route.ts:52 | definition: the mapper's default message, "Path `name` is required." or "`value` is not a valid enum value for path `name`." |
| BlogPostSchema.CheckPath | models/BlogPost.ts:36-66 | the validators of one post path report it exactly when it fails |
| BlogPostSchema.PostErrors | models/BlogPost.ts:36-66 | the errors name exactly the failing paths, none twice |
| BlogPostSchema.PostErrorsInSchemaOrder | models/BlogPost.ts:36-66 | the errors come in schema order: title, content, difficulty, category |
| BlogPostSchema.PostErrorsByPath | models/BlogPost.ts:36-66 | the errors are exactly the reports of the title, content, difficulty and category validators, concatenated in that order |
| BlogPostSchema.NoFailureIff | models/BlogPost.ts:36-66 | no path fails exactly when title and content are non-empty and both enumeration values are listed |
| BlogPostSchema.IsValidPost | models/BlogPost.ts:36-66 | definition: title and content present and non-empty, difficulty and category listed values |
| BlogPostSchema.ValidPostIff | models/BlogPost.ts:36-66 | validation reports no error if and only if title and content are present and non-empty and difficulty and category are listed values |
| BlogPostSchema.ValidityIgnoresOptionalFields | models/BlogPost.ts:44-47 | excerpt, author, tags and images never change whether a post is valid |
| BlogPostSchema.PostErrorMessages | app/api/posts/route.ts:52 | one detail message per error, the mapper's default message for that path |
| BlogPostSchema.ToPost | models/BlogPost.ts:35-73 | the stored post keeps every field of a valid document, maps the enumeration strings to their values, and takes id and timestamp from the store |
| AchievementSchema.CheckPath | models/Achievement.ts:15-40 | the validators of one achievement path report it exactly when it fails |
| AchievementSchema.AchievementErrors | models/Achievement.ts:14-52 | the errors name exactly the failing paths, none twice |
| AchievementSchema.AchievementErrorsInSchemaOrder | models/Achievement.ts:14-52 | the errors come in schema order |
| AchievementSchema.NoFailureIff | models/Achievement.ts:15-40 | no path fails exactly when the three names are non-empty, both enumeration values are listed and points are given |
| AchievementSchema.IsValidAchievement | models/Achievement.ts:15-40 | definition: the three names present and non-empty, category and difficulty listed values, points given |
| AchievementSchema.ValidAchievementIff | models/Achievement.ts:15-40 | validation reports no error if and only if ctfName, platform and challengeName are non-empty, category and difficulty are listed values and points are given |
| AchievementSchema.ValidityIgnoresPointsAndWriteup | models/Achievement.ts:37-49 | once points are given, their value (negative included) and the optional writeupId never change validity |
| AchievementSchema.ToAchievement | models/Achievement.ts:14-52 | the stored achievement keeps every field of a valid document; a missing solvedDate becomes the current time |
| PostsRoute.OrElse | app/api/posts/route.ts:33-37 | `x \|\| fallback` on a string: the value when it is non-empty, the fallback otherwise |
| PostsRoute.AuthorData | app/api/posts/route.ts:35-38 | author name and image each default on their own, to 'Anonymous' and '/default-avatar.jpg' |
| PostsRoute.MissingRequired | app/api/posts/route.ts:21-26 | definition: one of title, content, difficulty and category is absent or the empty string |
| PostsRoute.PostData | app/api/posts/route.ts:30-43 | the four required members are copied, a falsy excerpt becomes the default excerpt, author defaults apply, missing tags and images become empty |
| PostsRoute.PostDataFailsOnlyOnEnums | app/api/posts/route.ts:22-45 | after the guard, exactly the enumeration paths with unlisted values fail validation |
| PostsRoute.CreatePost | app/api/posts/route.ts:16-71 | 500 with the message on an exception, 400 on a missing member, success if and only if the guard passes, both enumeration values are listed and the store inserts; past the guard and validation a duplicate key is 409 "A post with this title already exists" and any other store error 500 with the store's message; the created post is appended, and nothing else changes the collection |
| PostsRoute.CreateStatuses | app/api/posts/route.ts:16-71 | every reply has status 200, 400, 409 or 500 |
| PostsRoute.CreatedPostFields | app/api/posts/route.ts:30-46 | the created post has the sent title, content and enumeration values, the given excerpt or else exactly the default excerpt of the content, the defaulted author, the given or empty tags and images, and the store's id and timestamp |
| PostsRoute.ValidationErrorReply | app/api/posts/route.ts:45-57 | after the guard, the reply is "Validation error" if and only if an enumeration value is not listed, and then it is 400 with one message per failing path and the collection is unchanged |
| PostsRoute.ValidationErrorsPastGuard | app/api/posts/route.ts:22-57 | after the guard the errors are a `NotInEnum` error for an unlisted difficulty, then one for an unlisted category, and nothing else |
| PostsRoute.ValidationErrorDetails | app/api/posts/route.ts:51-57 | after the guard the reply's details are the default enum message for an unlisted difficulty, then the one for an unlisted category |
| PostsRoute.ListPosts | app/api/posts/route.ts:5-14 | a permutation of all posts sorted by createdAt descending, or 500 'Failed to fetch posts' |
| StatsRoute.GetStats | app/api/stats/route.ts:5-45 | totalPosts is the number of posts, both breakdowns have one entry per present key with exact non-zero counts, totalCTFs is the sum of the category counts; 500 'Failed to fetch stats' on failure |
| StatsRoute.StatsTotalsAgree | app/api/stats/route.ts:10-33 | totalCTFs equals totalPosts, and so does the sum of the difficulty counts |
| AchievementsRoute.TotalPoints | app/api/achievements/route.ts:13-20 | the total of the `_id: null` group, or 0 if there is none, equals the sum of all points and is 0 for no achievements |
| AchievementsRoute.MostRecent | app/api/achievements/route.ts:56-58 | at most ten achievements, sorted by solvedDate non-increasing, all from the collection, and every one left out solved no later than each one shown |
| AchievementsRoute.GetAchievements | app/api/achievements/route.ts:5-72 | totalChallenges is the count, totalPoints the sum of points, each of the three groupings exact, and the list at most ten achievements sorted by solvedDate, all from the collection, none left out solved later than one shown; 500 'Failed to fetch achievements' on failure |
| AchievementsRoute.AchievementTotalsAgree | app/api/achievements/route.ts:10-53 | in each grouping, the counts add up to totalChallenges and the points to totalPoints |
| AchievementsRoute.CreateAchievement | app/api/achievements/route.ts:74-84 | success if and only if there is no exception, the document is valid and the store inserts, and the stored record is then appended; any other outcome is 500 'Failed to create achievement' |
| PostFilter.FilterPosts | app/blog/page.tsx:42-45 | the ordered subsequence of posts whose category and difficulty each match their selection, with "All …" as wildcard |
| PostFilter.Matches | app/blog/page.tsx:43-44 | definition: the category equals the selection or the selection is "All Categories", and likewise for the difficulty with "All Difficulties" |
| PostFilter.FilterAllIsIdentity | app/blog/page.tsx:42-45 | with both selections on "All", every post is shown |
| PostFilter.FilterIdempotent | app/blog/page.tsx:42-45 | filtering the shown list again with the same selection changes nothing |
| PostFilter.RemoveById | app/blog/page.tsx:34 | the posts with the given id are removed and all others kept, as often as before and in order |
| PostFilter.DeleteThenFilter | app/blog/page.tsx:34-45 | deleting then filtering equals filtering then deleting |
| PostFilter.Writeups | app/writeups/page.tsx:20-22 | the order-preserving subsequence of every post that is not Misc |
| PostFilter.IsWriteup | app/writeups/page.tsx:20-22 | definition: the category is one of Web, Crypto, Forensics, Pwn and Reverse |
| PostFilter.WhitelistIsAllButMisc | app/writeups/page.tsx:20-22 | the five-category whitelist admits a post if and only if its category is not Misc |
| PostFilter.ShowDeleteButton | app/blog/page.tsx:117 | definition: the author's name is 'Xpl01tE4gl3' |
| BlogIndex.BlogPage.constructor | app/blog/page.tsx:10-13 | no posts, loading, both selectors on "All" |
| BlogIndex.BlogPage.FetchPosts | app/blog/page.tsx:15-26 | the fetched posts replace the list (a failed fetch keeps it), and loading ends |
| BlogIndex.BlogPage.HandlePostDelete | app/blog/page.tsx:32-35 | the list becomes the list without that id; nothing else changes |
| BlogIndex.BlogPage.SelectCategory | app/blog/page.tsx:81 | the category selection changes, nothing else does |
| BlogIndex.BlogPage.SelectDifficulty | app/blog/page.tsx:95 | the difficulty selection changes, nothing else does |
| BlogIndex.BlogPage.FilteredPosts | app/blog/page.tsx:42-45 | the displayed posts are exactly those matching both selections, in fetched order, each as often as fetched |
| WriteupsIndex.WriteupsPage.constructor | app/writeups/page.tsx:9-12 | no posts, loading, both selectors on "All", and the no-Misc invariant |
| WriteupsIndex.WriteupsPage.FetchPosts | app/writeups/page.tsx:14-29 | the write-ups among the fetched posts replace the list (a failed fetch keeps it), loading ends, and no Misc post is held |
| WriteupsIndex.WriteupsPage.HandlePostDelete | app/writeups/page.tsx:35-38 | the list becomes the list without that id, the invariant holds, nothing else changes |
| WriteupsIndex.WriteupsPage.SelectCategory | app/writeups/page.tsx:63 | the category selection changes, nothing else does |
| WriteupsIndex.WriteupsPage.SelectDifficulty | app/writeups/page.tsx:76 | the difficulty selection changes, nothing else does |
| WriteupsIndex.WriteupsPage.FilteredPosts | app/writeups/page.tsx:40-43 | the displayed posts match both selections, keep fetched order and multiplicity, and none is Misc |
| NewPost.TagRecords | app/blog/new/page.tsx:64-68 | one record per tag in order, id the index in decimal, name the tag, colour one of the five palette entries |
| NewPost.TagIdsDistinct | app/blog/new/page.tsx:64-68 | no two tag records share an id |
| NewPost.WithoutTag | app/blog/new/page.tsx:110-112 | every occurrence of the tag is removed and the other tags are kept in order, each as often as before |
| NewPost.NewPostForm.constructor | app/blog/new/page.tsx:15-22 | the empty form: category Web, difficulty Medium, no tags or images, and the tag invariant |
| NewPost.NewPostForm.EditNewTag | app/blog/new/page.tsx:189 | the tag input changes, nothing else does |
| NewPost.NewPostForm.HandleAddTag | app/blog/new/page.tsx:103-108 | on Enter with a non-empty trimmed input that is not yet a tag, the trimmed input is appended and the input cleared, otherwise nothing changes; tags stay distinct, non-empty and trimmed |
| NewPost.NewPostForm.RemoveTag | app/blog/new/page.tsx:110-112 | tags become the tags without that one, the invariant holds, nothing else changes |
| NewPost.NewPostForm.HandleImageUpload | app/blog/new/page.tsx:24-47 | with a file and a non-empty url, the image with an empty caption is appended and its markdown line added to the content; otherwise nothing changes |
| NewPost.ImageMarkdown | app/blog/new/page.tsx:41 | definition: the markdown image line `![name](url)` followed by a newline |
| NewPost.NewPostForm.Submission | app/blog/new/page.tsx:54-72 | the request sends the form's title, content, images and the numbered tag records, the default excerpt of the content and the owner as author; it has a missing member exactly when title or content is empty, and its enumeration values are listed |
| NewPost.SubmissionCreatesOwnedPost | app/blog/new/page.tsx:49-94 | a submission with title and content that the store accepts becomes a post with a delete button (author 'Xpl01tE4gl3'), the form's fields, the client excerpt, and the numbered tags |
| NewPost.EmptySubmissionRejected | app/blog/new/page.tsx:49-94 | with an empty title or content the server answers 400 "Missing required fields" and stores nothing |

## Left out

- lib/mongodb.ts is not part of this model. Connecting, pooling and caching the connection are I/O; a failure to connect is the `failure` parameter.
- The document store and its driver. Queries, counts, aggregations and inserts act on an in-memory sequence. The insert outcome, and the id and timestamp it assigns, are parameters.
- Order of `$group` output and of sort ties. Mongo leaves both unspecified, so contracts state only what holds for every order.
- JSON values of unexpected types. Request members are either absent or of their declared type; the mapper's type casting (a numeric string for `points`, an ObjectId for `writeupId`) is not modelled.
- The `date` member of a post request and the `date` path of the post schema. Both are wall-clock values. `createdAt` and `updatedAt` sent by the form are ignored by the route and by the model.
- Text.DefaultExcerpt: counts Unicode scalar values, where `slice` counts UTF-16 code units, so the two differ on content holding characters outside the Basic Multilingual Plane (the model never cuts a surrogate pair and keeps up to 150 such characters rather than 75).
- Points are integers. The only client, app/achievements/new/page.tsx:49, sends `parseInt(value) || 0`, but the schema accepts any Number; fractional points and floating-point `$sum` totals are not modelled.
- Clocks. `solvedDate` defaults to a `now` parameter, and `createdAt` comes from the store reply.
- `Math.random` in the tag colour. It is the oracle `pick`, so the model only knows that the colour is a palette entry.
- The 409 reply arises only if the store reports a duplicate key. The post schema declares no unique index, so in practice this path depends on indexes outside the code.
- Browser and network effects. `fetch`, the `statsRefresh` event, router navigation, `alert`, console logging and the `isSubmitting` flag (set and reset within one submission) are left out. A page fetch is its decoded result or `None` for a failed request.
- React's asynchronous state updates and stale closures. Each handler runs on the state it is given.
- Rendering, and the other pages and components (profile, home, navigation bar, stats widget, post card, achievement form). They display data or forward to the routes modelled here.
- The delete-button rule is `PostFilter.ShowDeleteButton`, a predicate with no contract of its own. It is stated through `NewPost.SubmissionCreatesOwnedPost`.
