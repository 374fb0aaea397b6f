# MinkenWorld storefront core, modelled in Dafny

This project models the logic of the MinkenWorld marketplace storefront.
The storefront renders pages and holds no durable state of its own; the
modelled core is the logic that reshapes what the commerce backend and the
language model return. It covers:

- the product listing helpers, `listProducts` and `listProductsWithSort`: the argument check, limit, offset and next-page arithmetic, the empty-result and fetch-error fallbacks, the seller filter, and the page slice;
- the shopping assistant's product tools, `search_products` and `list_all_products`: the backend search, the manual all-terms fallback filter, and the product summary with its fixed fallbacks;
- `listCollections`: paging defaults written into the caller's query dictionary, then an in-place sort, ranked collections first by rank and the rest by title;
- `listCategories`: root selection, child flattening and grandchild re-attachment;
- the chat endpoint `POST /api/agent/chat`: message validation, history conversion, product collection from tool messages, and response shaping;
- the recommendation list of the product details page;
- the agent graph and its state channels: the `agent`/`tools` loop, the routing rule, the system-prompt framing, and the append-only and last-write-wins reducers;
- the chat widget: the send transitions, the open-flag derivation, and close;
- the mobile bottom bar: which tab is highlighted, and the chat flag.

## How the model is built

The backend, the language model, the tool implementations, `sortProducts` and `localeCompare` are function-typed parameters. Examples:

- `backend: ProductQuery -> StoreResponse`;
- `llm: seq<Message> -> Message`;
- `sort: (seq<Product>, string) -> seq<Product>`;
- `collate: (string, string) -> int`.

Each parameter maps the request the storefront makes to the answer it gets, including failure answers. Every other call is deterministic given those answers, so the model reads as the source does.

Modules follow the source files:

| module | source |
|---|---|
| `Products` | `products.ts` |
| `AgentTools` | `tools.ts` |
| `Collections` | `collections.ts` |
| `Categories` | `categories.ts` |
| `ChatRoute` | the chat `route.ts` |
| `ProductDetails` | lines 19–52 of `ProductDetailsPage.tsx` |
| `AgentGraph` | `graph.ts` |
| `AgentState` | `state.ts` |
| `ShoppingAssistant` | `ShoppingAssistant.tsx` |
| `MobileBottomNav` | `MobileBottomNav.tsx` |

Four shared modules support them:

- `Builtins` writes out the JavaScript semantics the code relies on: truthiness, `||` fallback, `toLowerCase`, `split(' ')`, `includes`, `slice` with negative indices, `substring`, `trim() === ""`, and number-to-text.
- `Seqs` holds `filter` and `flat`.
- `Catalog` holds the backend's product records.
- `Messages` holds the conversation messages.

The source's form is kept:

- **Pure code** (products, tools, categories, the graph routing, the reducers) becomes functions and lemmas.
- **Collections:** the in-place sort is a method on an `array`, and the query dictionary is a class whose `map` field the method updates.
- **Chat endpoint:** the product-collecting `forEach` is a method with a loop proved against a specification function.
- **Recommendation list:** it is assembled step by step in a method.
- **Widget and bottom bar:** classes whose methods update their fields.

Two behaviours of the code worth noting:

- `listProducts` throws when neither a country code nor a region id is given. It does not fall back to a default.
- The graph sets no bound of its own on agent/tool rounds. A model that keeps calling tools runs until LangGraph's step limit throws (`AgentGraph.NoIterationBound`); the chat endpoint turns that into a 500.

## Model

| member | source | states |
|---|---|---|
| Products.EffectiveLimit | src/lib/data/products.ts:48 | the limit is 12 when none (or 0) is given, the given value otherwise, and never below 1 |
| Products.Offset | src/lib/data/products.ts:49-50 | the page is clamped to at least 1, so the offset is `(page-1)*limit` for pages from 1 and 0 below, never negative |
| Products.SentLimit | src/lib/data/products.ts:90-101 | the `...queryParams` spread comes last, so a supplied limit, even 0, is what the backend receives; otherwise 12 |
| Products.QueryFor | src/lib/data/products.ts:48-101 | the query carries the sent limit and a non-negative offset computed from the effective limit, so a limit of 0 is sent as 0 while the offset uses 12 |
| Products.ListProducts | src/lib/data/products.ts:43-143 | error exactly when neither country code nor region id is truthy; a fetch error gives no products, count 0 and next page 0; an empty or missing list gives no products, count 0, no next page; otherwise the backend's products and count are passed through and the next page is `pageParam + 1` exactly when `count > offset + limit`; a non-empty result is always the backend's own list |
| Products.NextPageAdvances | src/lib/data/products.ts:120 | for pages from 1, following `nextPage` asks for the window right after the current one, which starts below `count` |
| Products.NextPageBelowOneRepeats | src/lib/data/products.ts:49-120 | `nextPage` is computed from the unclamped page, so below page 1 it names a page whose window is the one just returned |
| Products.SellerFilterExact | src/lib/data/products.ts:198-206 | with a seller id a product is kept exactly when its `seller.id` equals it; without one nothing is filtered |
| Products.SellerFilterKeepsOrder | src/lib/data/products.ts:198-206 | the seller filter keeps the backend's order |
| Products.ListProductsWithSort | src/lib/data/products.ts:174-232 | error exactly when the country code is empty; `count` is the backend's unfiltered count; the page is `slice(start, start + limit)` of the filtered, sorted window, at most `limit` long; `nextPage` is the offset `start + limit`, present exactly when `count` exceeds it |
| Products.PageStart | src/lib/data/products.ts:216 | the start offset of any page from 1 is not negative |
| Products.PageIsWindow | src/lib/data/products.ts:216-220 | for pages from 1 the page is the contiguous window of the sorted list starting at `(page-1)*limit` |
| Products.PageZeroIsEmpty | src/lib/data/products.ts:216-220 | page 0 resolves to a negative start and always yields an empty page |
| Products.PageHasOnlySellersProducts | src/lib/data/products.ts:198-220 | with a seller id and a sort that permutes, every product on the page is that seller's |
| AgentTools.FetchProducts | src/lib/agent/tools.ts:27-33 | a non-ok status and a body without products both give `[]`; only a network error propagates |
| AgentTools.SearchTerms | src/lib/agent/tools.ts:57-60 | every search term is longer than two characters, has no space, and is lower-case |
| AgentTools.SearchTermsExact | src/lib/agent/tools.ts:60 | the terms are exactly the long space-separated pieces of the lower-cased query |
| AgentTools.ManualFilterExact | src/lib/agent/tools.ts:62-71 | the fallback keeps a fetched product exactly when every term occurs in its lower-cased title, description and handle text |
| AgentTools.NoSignificantTermsKeepsAll | src/lib/agent/tools.ts:60-71 | a query without any word longer than two characters keeps every fetched product |
| AgentTools.GreyPantsFindsGreySweatPants | src/lib/agent/tools.ts:57-70 | the query "grey pants" has exactly the terms "grey" and "pants", and the fallback filter keeps a product titled "Grey Sweat Pants" |
| AgentTools.GreyPantsTerms | src/lib/agent/tools.ts:57-60 | the query "grey pants" yields the terms "grey" and "pants", in that order |
| AgentTools.GreySweatPantsMatches | src/lib/agent/tools.ts:62-70 | both terms occur in the searchable text of a product titled "Grey Sweat Pants" |
| AgentTools.Summarize | src/lib/agent/tools.ts:84-94 | id, title and handle are copied; the variant id is the first variant's id, or ""; the price and currency are the first variant's calculated amount and currency code, with 0 and KES as fallbacks; the currency is never empty; the thumbnail is the product's own, else the first image's url, else ""; the description is present exactly when the product has one, and is its first min(150, length) characters |
| AgentTools.SummarizeAll | src/lib/agent/tools.ts:84-97 | one summary per product, in order |
| AgentTools.SearchRequestFor | src/lib/agent/tools.ts:6-12 | `q` is sent exactly when the query is non-empty, and the limit defaults to 20 |
| AgentTools.FallbackIsUnfilteredWindow | src/lib/agent/tools.ts:56 | the fallback fetch sends no `q` and a limit of 100 |
| AgentTools.SearchFound | src/lib/agent/tools.ts:101-104 | the success result carries one summary per product, and its "Found N products" message counts exactly those |
| AgentTools.SearchProducts | src/lib/agent/tools.ts:44-113 | an error result, the fixed failure message with no products, exactly when a fetch throws; first-search results are returned as "Found" when there are any; otherwise the fallback filter's matches are returned, and the "No products found" result with no products when it keeps none |
| AgentTools.SearchResultsJustified | src/lib/agent/tools.ts:50-97 | every returned product summarises a product from the backend search or one that passes the fallback filter |
| AgentTools.ListAllProducts | src/lib/agent/tools.ts:154-191 | the SDK error gives the error result; otherwise one summary per listed product, with the "nothing available" result exactly when none is listed |
| AgentTools.Encode | src/lib/agent/tools.ts:101-104 | the serialised result always carries its `products` array |
| Collections.RankedByRank | src/lib/data/collections.ts:49-51 | two ranked collections are ordered by ascending rank |
| Collections.RankedBeforeUnranked | src/lib/data/collections.ts:53-54 | a ranked collection goes before an unranked one and never after |
| Collections.UnrankedByTitle | src/lib/data/collections.ts:56 | two unranked collections are ordered by title, a missing title counting as "" |
| Collections.CompareTotal | src/lib/data/collections.ts:44-57 | with a total collation the comparator orders any two collections |
| Collections.SortInPlace | src/lib/data/collections.ts:44-57 | the array ends sorted by the comparator and holds the same collections |
| Collections.SortedRankedFirst | src/lib/data/collections.ts:44-57 | in the sorted list no unranked collection precedes a ranked one |
| Collections.SortedRanksAscend | src/lib/data/collections.ts:44-51 | in the sorted list ranks never decrease |
| Collections.QueryParams.FillPagingDefaults | src/lib/data/collections.ts:30-31 | the caller's dictionary gets `limit` "100" and `offset` "0" where they are missing or empty |
| Collections.PagingDefaults | src/lib/data/collections.ts:30-31 | limit and offset end set and non-empty; supplied values are kept; no other entry changes |
| Collections.PagingDefaultsIdempotent | src/lib/data/collections.ts:30-31 | applying the defaults twice changes nothing more |
| Collections.ListCollections | src/lib/data/collections.ts:23-69 | defaults are written into the caller's dictionary; a rejected fetch propagates; otherwise the result is the fetched collections, sorted, with `count` their number |
| Categories.SentLimit | src/lib/data/categories.ts:10-21 | the limit sent is 100 when the query has none, and the query's own value otherwise, since the spread comes last |
| Categories.Reattach | src/lib/data/categories.ts:37-47 | a main category keeps its fields, and gets as children the fetched categories whose parent it is, when there are any |
| Categories.ListCategories | src/lib/data/categories.ts:32-55 | parents are fetched root categories; there is one entry per main category, each re-attached |
| Categories.ParentsAreAllRoots | src/lib/data/categories.ts:32 | every fetched root is a parent, and roots keep their fetched order |
| Categories.MainCategoriesInParentOrder | src/lib/data/categories.ts:35 | main categories are the parents' child lists in parent order, a missing list adding nothing |
| Categories.MainCategoryMembers | src/lib/data/categories.ts:35 | a category is a main category exactly when some parent lists it as a child |
| Categories.ReattachedChildrenExact | src/lib/data/categories.ts:38-45 | the attached children are exactly the fetched categories whose parent id is the main category's id |
| ChatRoute.HistoryMessages | src/app/api/agent/chat/route.ts:14-21 | the converted history is never longer than the posted one |
| ChatRoute.HistoryMessagesIsFilterThenMap | src/app/api/agent/chat/route.ts:14-21 | the conversion equals keeping the `user`/`assistant` entries and converting each, in order |
| ChatRoute.HistoryMessagesAppend | src/app/api/agent/chat/route.ts:14-21 | converting two stretches of history and joining them is converting the whole |
| ChatRoute.UnknownRoleDropped | src/app/api/agent/chat/route.ts:20-21 | an entry with any other role is dropped |
| ChatRoute.KnownHistoryKept | src/app/api/agent/chat/route.ts:14-21 | when every role is known, every entry is kept in place as a human or AI message |
| ChatRoute.ToolProductsAppend | src/app/api/agent/chat/route.ts:41-50 | collected products of joined message lists are the joined collections |
| ChatRoute.ToolProductsOfToolMessages | src/app/api/agent/chat/route.ts:40-50 | only tool messages contribute products |
| ChatRoute.ToolProductsOrigin | src/app/api/agent/chat/route.ts:40-50 | a product is collected exactly when some tool message carries it |
| ChatRoute.ToolResultsRoundTrip | src/app/api/agent/chat/route.ts:43-46 | tool messages holding the tools' results give back all their products, result after result |
| ChatRoute.CollectProducts | src/app/api/agent/chat/route.ts:40-50 | the `forEach` accumulates exactly the products of the tool messages, in order |
| ChatRoute.Post | src/app/api/agent/chat/route.ts:5-64 | an unreadable body gives 500; a falsy message gives 400 and the agent is not invoked; the agent gets the converted history then the message; an agent failure gives 500; otherwise 200 with the last AI message's text and the collected products, or "" and none when the last message is not AI; `products` is never an empty array |
| ProductDetails.SellerProducts | src/components/sections/ProductDetailsPage/ProductDetailsPage.tsx:26 | a product is listed exactly when it is in the seller's catalogue and has another id than the current product |
| ProductDetails.TopUp | src/components/sections/ProductDetailsPage/ProductDetailsPage.tsx:46-49 | a product is in the top-up exactly when it was fetched, is not the current product and is not already listed |
| ProductDetails.TopUpList | src/components/sections/ProductDetailsPage/ProductDetailsPage.tsx:44-50 | the topped-up list keeps all the seller's products first, is cut to 10, never holds the current product, and everything after the seller's products is a fetched product not already listed |
| ProductDetails.Recommend | src/components/sections/ProductDetailsPage/ProductDetailsPage.tsx:19-52 | no product gives nothing, a suspended seller the not-found page; with 3 or more seller products the heading is "More from this seller" and the list is exactly them; otherwise the extra fetch is made, the heading is "More Products", and the list is the seller products followed by the top-up, cut to 10; the current product never appears |
| AgentGraph.ShouldContinue | src/lib/agent/graph.ts:55-65 | routes to the tools exactly when the last message is an AI message with tool calls |
| AgentGraph.ModelInput | src/lib/agent/graph.ts:45-48 | the model sees the system prompt first, then all state messages unchanged |
| AgentGraph.CallModel | src/lib/agent/graph.ts:44-52 | the agent node contributes exactly one message, the model's reply, and no products |
| AgentGraph.RunTools | src/lib/agent/graph.ts:70 | the tools node adds one tool message per pending tool call, in call order |
| AgentGraph.Next | src/lib/agent/graph.ts:68-76 | start goes to the agent; tools go back to the agent; the agent goes to the tools exactly when tools are requested; the end is reached only from the agent |
| AgentGraph.AgentStepAppendsReply | src/lib/agent/graph.ts:44-52 | after the agent step the messages are the old ones plus the model's reply to the prompted conversation, and products are unchanged |
| AgentGraph.RunAppendOnly | src/lib/agent/graph.ts:68-79 | a run only extends the messages and never changes the products |
| AgentGraph.RunEndsWithFinalAnswer | src/lib/agent/graph.ts:72-75 | a run ends only right after an agent step whose reply, to everything before it, requests no tool |
| AgentGraph.ToolStepAnswersEveryCall | src/lib/agent/graph.ts:70 | the tools step grows the messages by one tool message per requested call |
| AgentGraph.AgentLoops | src/lib/agent/graph.ts:69-75 | from the agent node, a model that always requests a tool sends every run on to the tools node, and no step budget reaches the end |
| AgentGraph.ToolsLoop | src/lib/agent/graph.ts:70-76 | from the tools node every run returns to the agent node, and with such a model no step budget reaches the end |
| AgentGraph.NoIterationBound | src/lib/agent/graph.ts:68-76 | from the agent or the tools node, with a model that always requests a tool, no step budget reaches the end |
| AgentGraph.StorefrontHasNoIterationBound | src/lib/agent/graph.ts:15-76 | with the storefront's system prompt and a model that always asks to search (a fixture, not part of the source), no run ever ends |
| AgentGraph.InvokeExtendsConversation | src/lib/agent/graph.ts:68-79 | the returned messages extend the input conversation by at least the final reply, which requests no tool |
| AgentState.ReduceMessages | src/lib/agent/state.ts:7 | the old list is a prefix of the new, which is longer by exactly the update's length |
| AgentState.ReduceProducts | src/lib/agent/state.ts:10 | the update wins when present; otherwise the old value is kept |
| AgentState.Initial | src/lib/agent/state.ts:9-12 | products default to the empty list |
| AgentState.Apply | src/lib/agent/state.ts:5-13 | folding one update appends its messages and replaces the products only when the update has some |
| AgentState.AllAddedAppended | src/lib/agent/state.ts:6-8 | after any sequence of updates the messages are the old ones followed by everything added, in update order |
| AgentState.MessagesAppendOnly | src/lib/agent/state.ts:6-8 | the same, and so the old message list is always a prefix of the new |
| AgentState.ProductsLastWriteWins | src/lib/agent/state.ts:9-12 | the products channel holds the last present write |
| AgentState.ProductsUnwritten | src/lib/agent/state.ts:10 | updates without products leave the channel unchanged |
| ShoppingAssistant.History | src/components/organisms/ShoppingAssistant/ShoppingAssistant.tsx:58 | the history has one role/content entry per message, in order |
| ShoppingAssistant.ReplyMessage | src/components/organisms/ShoppingAssistant/ShoppingAssistant.tsx:62-81 | the reply is an assistant message with non-empty text: the response content, the apology when it is empty, or the error text on a non-ok status or an exception |
| ShoppingAssistant.Widget.constructor | src/components/organisms/ShoppingAssistant/ShoppingAssistant.tsx:21-29 | the widget starts with the greeting alone, an empty input, not loading, and closed |
| ShoppingAssistant.Widget.IsOpen | src/components/organisms/ShoppingAssistant/ShoppingAssistant.tsx:32 | on mobile the prop decides, defaulting to closed; on desktop the internal flag decides |
| ShoppingAssistant.Widget.SetInput | src/components/organisms/ShoppingAssistant/ShoppingAssistant.tsx:217 | typing sets the input and changes nothing else (the same handler is at line 362) |
| ShoppingAssistant.Widget.OpenWidget | src/components/organisms/ShoppingAssistant/ShoppingAssistant.tsx:242 | the floating button opens the desktop widget and changes nothing else |
| ShoppingAssistant.Widget.BeginSend | src/components/organisms/ShoppingAssistant/ShoppingAssistant.tsx:42-60 | nothing happens on blank input or while loading; otherwise the untrimmed user message is appended, the input cleared, loading set, and the request carries the history from before the new message |
| ShoppingAssistant.Widget.FinishSend | src/components/organisms/ShoppingAssistant/ShoppingAssistant.tsx:62-84 | exactly one assistant reply is appended whatever the outcome, and loading ends |
| ShoppingAssistant.Widget.HandleClose | src/components/organisms/ShoppingAssistant/ShoppingAssistant.tsx:94-100 | on mobile with a callback, `onClose` is called; otherwise the internal flag is cleared |
| ShoppingAssistant.SentRequestAccepted | src/components/organisms/ShoppingAssistant/ShoppingAssistant.tsx:56-59 | a request the widget sends passes the endpoint's validation, and the whole history reaches the agent as human and AI messages |
| MobileBottomNav.HomeOnlyAtRoot | src/components/organisms/MobileBottomNav/MobileBottomNav.tsx:20 | the home tab is active exactly on `/` |
| MobileBottomNav.OtherTabsByPrefix | src/components/organisms/MobileBottomNav/MobileBottomNav.tsx:21-22 | any other tab is active exactly when the pathname starts with its path |
| MobileBottomNav.WishlistAlsoHighlightsProfile | src/components/organisms/MobileBottomNav/MobileBottomNav.tsx:47-81 | under `/user/wishlist` both the wishlist and the profile tab are active |
| MobileBottomNav.Nav.constructor | src/components/organisms/MobileBottomNav/MobileBottomNav.tsx:17 | the chat flag starts false and the embedded assistant is closed |
| MobileBottomNav.Nav.OpenChat | src/components/organisms/MobileBottomNav/MobileBottomNav.tsx:62 | the chat button sets the flag, and the assistant shows |
| MobileBottomNav.Nav.CloseChat | src/components/organisms/MobileBottomNav/MobileBottomNav.tsx:103-107 | the assistant's close calls the bar's `onClose`, which clears the flag, and the assistant hides |

## Left out

- The network, with the answers taken as parameters instead. This covers:
  - the `fetch` and SDK calls themselves;
  - region lookup (`getRegion`/`retrieveRegion`), so the `region_id` and `country_code` query fields are not modelled;
  - auth headers, cache options, `fields` selections and environment variables.
- Logging (`console.log` and `console.error`) is not modelled.
- The `category_id` and `collection_id` query fields are not modelled.
- Products.ListProducts: of the `queryParams` spread, only `limit` is modelled. Keys such as `offset` or `handle` that would override the computed query are not.
- The `getCategories` tool is not part of this model.
- Builtins.ToLower: `toLowerCase` is modelled for ASCII letters only. Builtins.IsWhitespace knows the common whitespace characters, not the whole Unicode class `trim` removes.
- AgentTools.SearchTerms and AgentTools.Summarize: JavaScript's `length` and `substring` count UTF-16 code units, while the model counts characters. A term or description with characters outside the Basic Multilingual Plane gets a different length, and so a different `> 2` test or 150-character cut.
- Products.EffectiveLimit: negative limits are excluded. The limit is typed `nat`, while `queryParams?.limit || 12` passes a negative number through to the offset and `slice` arithmetic of both listing helpers.
- AgentGraph.SystemPrompt holds only the first line of the system prompt. The remaining instructions (tool use, price format) are not reproduced, and no property depends on them.
- AgentTools.Summarize: prices are integers. Decimal amounts and a `NaN` or `0` amount hitting `|| 0` are not modelled separately.
- The message text each tool builds is modelled. The serialised JSON is abstracted as the payload the endpoint reads back (`Messages.ToolPayload`).
- The error `details` string of the endpoint's 500 response is not modelled.
- Collections.Compare: a `rank` of `null` is not modelled; `!== undefined` counts it as a rank, which subtraction turns into 0. The model's `rank` is either absent (`None`) or an integer.
- Collections.SortInPlace: the engine's `Array.prototype.sort` is modelled by an insertion sort. The model states sortedness and permutation, not stability or the engine's exact order among equal elements.
- `localeCompare` is an abstract collation, assumed total.
- `sortProducts` is an abstract function. The seller lemma assumes it permutes its input.
- AgentGraph.Run: LangGraph's step limit (which throws) is a `fuel` parameter. Running out of fuel gives `None`.
- The language model and each tool's arguments are abstract. A tool call's outcome is a parameter of the tools node.
- The page that would be rendered, with its gallery, details and product section, is not modelled. Neither is the first `listProducts` lookup by handle, which arrives as `prod`.
- React rendering, scrolling, markdown and links are not modelled.
- `handleKeyPress` (Enter sends) is not modelled. It calls the modelled send.
- `isLoggedIn` and the wishlist badge are not modelled.
- React batches state updates asynchronously. The model applies each setter in order, and splits `handleSend` at its `await`.
