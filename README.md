# sreeeder article rendering and bookmarks: a Dafny model

This project models the two pieces of logic in the sreeeder RSS reader that go beyond UI code.

- **Block dispatch of an article** (`ChannelArticles.kt`). The app takes an HTML document that jsoup has already parsed. It walks the children of `<body>` and turns each element into zero or more content blocks:
  - `h1`…`h6` become a heading;
  - `p` becomes a paragraph;
  - `ul` becomes a bullet list of the own texts of its `li` children;
  - `head` is a transparent wrapper whose children get the same dispatch;
  - every other tag is dropped together with its whole subtree.

  In module `ChannelArticles` (`channel_articles.dfy`) this is a set of total recursive functions from a `Node` tree to a `seq<Block>`. Each Compose function becomes a function of the same name, except `RenderHtmlLiTag`: its only content, an item's own text, is taken inside `ListItems`. Module `ChannelArticlesProperties` (`channel_articles_properties.dfy`) proves document order, the outcome of each tag, the drop rule, `head` flattening and the size bound.
- **Bookmark toggle** (`ArticleBookmarksRepository.kt`). `toggle` reads the DAO row for an article id. If a row exists, it removes it and reports `onRemoveBookmark`; otherwise it adds a row stamped with the current time and reports `onBookmark`. `observe` projects each stored row list to its ids.
  - In module `ArticleBookmarks` (`article_bookmarks.dfy`), the pure function `ToggleStep` gives the effect of one toggle on the stored map and on a log of every DAO and analytics call.
  - Class `ArticleBookmarksRepository` holds that map and log as fields. Its `Toggle` method performs the read, the write and the report in the source's order, and is proved equal to `ToggleStep`.
  - Module `ArticleBookmarksProperties` (`article_bookmarks_properties.dfy`) proves the two-toggle and N-toggle properties.

Parameters stand in for these collaborators:
- the clock `DbDateTime.now()` is the `now` argument of `Toggle`;
- the row list that the DAO's `getAll()` emits is the `entries` argument of `Observe`.

Two details of the code that the model keeps:
- The paragraph text is the element's `wholeText()` (`ChannelArticles.kt:131`), not its own text. So the text of inline children is included.
- `RenderHtmlHeadingTag` has its own fallback for a level outside 1..6 (`ChannelArticles.kt:118`): it draws nothing. The model keeps that branch. Lemma `HeadingBlock` shows that the dispatch never reaches it.

## Model

| member | source | states |
|---|---|---|
| ChannelArticles.RenderHtml | app/src/main/java/ru/debajo/reader/rss/ui/channel/ChannelArticles.kt:51-63 | only the body's children are dispatched; the output has fewer blocks than the document has elements, and every heading level is in 1..6 |
| ChannelArticles.RenderAll | app/src/main/java/ru/debajo/reader/rss/ui/channel/ChannelArticles.kt:59-61 | siblings rendered in order; at most one block per element in the sequence, all well formed |
| ChannelArticles.RenderBlock | app/src/main/java/ru/debajo/reader/rss/ui/channel/ChannelArticles.kt:65-81 | tag dispatch; any element other than `head` yields exactly one block if its tag is recognised and none otherwise; never more blocks than elements in the subtree |
| ChannelArticles.RenderHtmlUlTag | app/src/main/java/ru/debajo/reader/rss/ui/channel/ChannelArticles.kt:83-90 | a `ul` is exactly one bullet list with no more items than children |
| ChannelArticles.ListItems | app/src/main/java/ru/debajo/reader/rss/ui/channel/ChannelArticles.kt:86-87 | at most one item per child; empty exactly when no child is tagged `li` |
| ChannelArticles.RenderHtmlHeadingTag | app/src/main/java/ru/debajo/reader/rss/ui/channel/ChannelArticles.kt:109-124 | draws a heading exactly when the factor is in 1..6, and then a well-formed one |
| ChannelArticles.RenderHtmlPTag | app/src/main/java/ru/debajo/reader/rss/ui/channel/ChannelArticles.kt:126-133 | a `p` is exactly one paragraph |
| ChannelArticles.RenderHtmlHeadTag | app/src/main/java/ru/debajo/reader/rss/ui/channel/ChannelArticles.kt:135-142 | a `head` adds no block of its own: fewer blocks than elements in its subtree |
| ChannelArticlesProperties.RenderAllAppend | app/src/main/java/ru/debajo/reader/rss/ui/channel/ChannelArticles.kt:59-61 | the blocks of a concatenation of siblings are the concatenation of their blocks |
| ChannelArticlesProperties.RenderAllSingle | app/src/main/java/ru/debajo/reader/rss/ui/channel/ChannelArticles.kt:59-60 | one sibling contributes exactly its own blocks |
| ChannelArticlesProperties.DocumentOrder | app/src/main/java/ru/debajo/reader/rss/ui/channel/ChannelArticles.kt:59-61 | the blocks of body child i follow those of all earlier children and precede those of all later ones |
| ChannelArticlesProperties.RootNeverClassified | app/src/main/java/ru/debajo/reader/rss/ui/channel/ChannelArticles.kt:59 | the root's own tag and text never affect the output; an empty body yields no blocks |
| ChannelArticlesProperties.HeadingBlock | app/src/main/java/ru/debajo/reader/rss/ui/channel/ChannelArticles.kt:72-77 | tag `hN` (N in 1..6) yields exactly `[Heading(N, ownText)]`, even for empty text |
| ChannelArticlesProperties.HeadingOrigin | app/src/main/java/ru/debajo/reader/rss/ui/channel/ChannelArticles.kt:110-123 | a heading block has level in 1..6, comes from the tag of that level and carries that element's own text |
| ChannelArticlesProperties.ParagraphBlock | app/src/main/java/ru/debajo/reader/rss/ui/channel/ChannelArticles.kt:127-132 | `p` yields exactly `[Paragraph(wholeText)]` |
| ChannelArticlesProperties.BulletListBlock | app/src/main/java/ru/debajo/reader/rss/ui/channel/ChannelArticles.kt:84-89 | `ul` yields exactly one bullet list of its `li` items; with no `li` child, an empty list is still emitted |
| ChannelArticlesProperties.ListItemsAppend | app/src/main/java/ru/debajo/reader/rss/ui/channel/ChannelArticles.kt:86 | items keep the order of the children: the items of concatenated children are the concatenated items |
| ChannelArticlesProperties.ListItemsSingle | app/src/main/java/ru/debajo/reader/rss/ui/channel/ChannelArticles.kt:86-87 | a child gives its own text when tagged `li` and nothing otherwise |
| ChannelArticlesProperties.ListItemsIgnoresGrandchildren | app/src/main/java/ru/debajo/reader/rss/ui/channel/ChannelArticles.kt:86-87 | items depend only on the direct children's tags and own texts, never on grandchildren |
| ChannelArticlesProperties.UnknownTagDropped | app/src/main/java/ru/debajo/reader/rss/ui/channel/ChannelArticles.kt:79 | an unrecognised tag yields nothing, whatever subtree it holds |
| ChannelArticlesProperties.HeadFlattening | app/src/main/java/ru/debajo/reader/rss/ui/channel/ChannelArticles.kt:136-141 | replacing a `head` by its children, in place, leaves the output unchanged |
| ChannelArticlesProperties.OrderExample | app/src/main/java/ru/debajo/reader/rss/ui/channel/ChannelArticles.kt:59-89 | `[h1 A, p B, ul[li C, li D]]` gives heading, paragraph, list in that order |
| ChannelArticlesProperties.DropExample | app/src/main/java/ru/debajo/reader/rss/ui/channel/ChannelArticles.kt:79 | `[div[h1 X], h2 Y]` gives only `Heading(2, "Y")` |
| ChannelArticlesProperties.WrapperAndEmptyListExample | app/src/main/java/ru/debajo/reader/rss/ui/channel/ChannelArticles.kt:136-141 | `[head[h1 A, p B]]` gives the two blocks; `[ul[]]` gives one empty list |
| ArticleBookmarks.ArticleIds | app/src/main/java/ru/debajo/reader/rss/domain/article/ArticleBookmarksRepository.kt:17-20 | the projection keeps length and order: position i holds the id of row i |
| ArticleBookmarks.SnapshotIds | app/src/main/java/ru/debajo/reader/rss/domain/article/ArticleBookmarksRepository.kt:17-20 | for a row list that lists the store, an id is in the projection exactly when it is stored |
| ArticleBookmarks.ToggleStep | app/src/main/java/ru/debajo/reader/rss/domain/article/ArticleBookmarksRepository.kt:23-34 | flips the id's membership; an added id carries `now`; every other id keeps its presence and timestamp; the log gains exactly the read, then one mutation (remove if present, add if absent), then its matching analytics call |
| ArticleBookmarks.ArticleBookmarksRepository.constructor | app/src/main/java/ru/debajo/reader/rss/domain/article/ArticleBookmarksRepository.kt:13-16 | starts from the given stored map and an empty log |
| ArticleBookmarks.ArticleBookmarksRepository.DaoGetById | app/src/main/java/ru/debajo/reader/rss/domain/article/ArticleBookmarksRepository.kt:25 | returns the stored row of the id, or none; logs the read; changes nothing else |
| ArticleBookmarks.ArticleBookmarksRepository.DaoRemove | app/src/main/java/ru/debajo/reader/rss/domain/article/ArticleBookmarksRepository.kt:27 | removes exactly that id and logs the removal |
| ArticleBookmarks.ArticleBookmarksRepository.DaoAdd | app/src/main/java/ru/debajo/reader/rss/domain/article/ArticleBookmarksRepository.kt:30 | stores the row under its id and logs the add |
| ArticleBookmarks.ArticleBookmarksRepository.AnalyticsOnRemoveBookmark | app/src/main/java/ru/debajo/reader/rss/domain/article/ArticleBookmarksRepository.kt:28 | logs `onRemoveBookmark` and leaves the store unchanged |
| ArticleBookmarks.ArticleBookmarksRepository.AnalyticsOnBookmark | app/src/main/java/ru/debajo/reader/rss/domain/article/ArticleBookmarksRepository.kt:31 | logs `onBookmark` and leaves the store unchanged |
| ArticleBookmarks.ArticleBookmarksRepository.Toggle | app/src/main/java/ru/debajo/reader/rss/domain/article/ArticleBookmarksRepository.kt:23-34 | the new store and log are exactly `ToggleStep` of the old ones: membership flips and every other id is untouched |
| ArticleBookmarks.ArticleBookmarksRepository.Observe | app/src/main/java/ru/debajo/reader/rss/domain/article/ArticleBookmarksRepository.kt:17-21 | a snapshot's ids are the projection of the emitted rows, and are exactly the stored ids |
| ArticleBookmarksProperties.ToggleTwice | app/src/main/java/ru/debajo/reader/rss/domain/article/ArticleBookmarksRepository.kt:23-34 | two toggles restore membership, with one add, one remove, one `onBookmark` and one `onRemoveBookmark` logged in order; from an absent id the store is restored exactly |
| ArticleBookmarksProperties.StepCounts | app/src/main/java/ru/debajo/reader/rss/domain/article/ArticleBookmarksRepository.kt:26-31 | one toggle logs exactly one mutation and one analytics call, of matching kind |
| ArticleBookmarksProperties.TogglesParity | app/src/main/java/ru/debajo/reader/rss/domain/article/ArticleBookmarksRepository.kt:23-34 | after n sequential toggles the id is present exactly when it started present and n is even, or started absent and n is odd; every other id keeps its presence and timestamp |
| ArticleBookmarksProperties.TogglesAddCounts | app/src/main/java/ru/debajo/reader/rss/domain/article/ArticleBookmarksRepository.kt:29-31 | n sequential toggles log equally many adds and `onBookmark` calls: ⌈n/2⌉ from an absent id, ⌊n/2⌋ from a present one |
| ArticleBookmarksProperties.TogglesRemoveCounts | app/src/main/java/ru/debajo/reader/rss/domain/article/ArticleBookmarksRepository.kt:26-28 | n sequential toggles log equally many removes and `onRemoveBookmark` calls: ⌊n/2⌋ from an absent id, ⌈n/2⌉ from a present one |
| ArticleBookmarksProperties.TogglesAlternate | app/src/main/java/ru/debajo/reader/rss/domain/article/ArticleBookmarksRepository.kt:25-32 | in n sequential toggles of one id, the k-th writes a remove or an add by the parity of k and the starting membership, the add stamped with the k-th moment, and is followed by its matching analytics call: adds and removes alternate, never two of one kind in a row |

## Left out

- Compose layout, typography, padding and bullet drawing in `ChannelArticles.kt` are presentation and carry no logic. The `Timber` logging is omitted, and so is the unused `childNodes()` call at line 129.
- jsoup parsing is not modelled. A `Node` holds the tag name and the `ownText()`/`wholeText()` that the parser extracted. Tag names are compared exactly as given; jsoup lower-cases them upstream.
- The navigation bundle helpers (`ChannelArticles.kt:28-34`) and the `ChannelArticles` screen entry point with its view-model loading are Android plumbing.
- Coroutines and flows: `withContext(IO)`, `flowOn(IO)`, and subscribing to and cancelling the `observe` flow. `Observe` models one emitted snapshot. Row order comes from the DAO query, which is not part of this model, so the row list is a parameter.
- Concurrent toggles of the same id are not modelled. Each `Toggle` is atomic and the model is sequential; `TogglesParity` covers N sequential toggles only.
- Storage and analytics failures are not modelled. The repository has no error handling. A Room exception from `getById`, `remove` or `add` propagates out of `toggle` unchanged. An exception from `analytics.onRemoveBookmark()` or `analytics.onBookmark()` (`ArticleBookmarksRepository.kt:28` and `:31`) also propagates, after the write has already happened. In the model none of these calls fails.
- The Room DAO, the `DbArticleBookmark` entity and the analytics backend are reduced to a map field and an event log. ArticleBookmarksDao.kt is not part of this model.
- `DbDateTime` is an integer timestamp.
