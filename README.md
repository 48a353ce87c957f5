# Real-time auction: a Dafny model

A model of the core of a real-time auction service. Sellers list products
with a starting price and an auction window. Signed-in users bid over a
STOMP WebSocket connection. Each bid is checked against the highest bid kept
in Redis under a per-auction lock, stored there, and broadcast as a status
message to everyone subscribed to the product's topic. A scheduled job closes
every auction whose end time has passed: it records the winner and the
winning price on the product, marks it SOLD_OUT and clears the auction's
Redis keys. Login goes through Google or Naver OAuth2. It ends in an access
token and a refresh token carried in cookies. The refresh token is also
stored in Redis under `RT:<email>` and can be exchanged for a new access
token. On the browser side an axios interceptor retries requests answered
401 after a token reissue, and the pages subscribe to the live status and
patch their cached product with it.

The back end is modelled in its own form:
- Services, repositories, the Redis template and the message broker are
  classes whose methods change their fields.
- The bidding, settlement, view and key-naming rules are functions.
- Properties that relate several calls are lemmas.

The front end is modelled the same way:
- The interceptor is a state machine over request and response events, and
  the class `AxiosRefresh.AxiosInstance` is proved against it.
- The STOMP client, the connection context, the hook and the product page
  are classes.
- Cookie reading, date formatting and paging are functions with lemmas.

Modules, one per source file or tight group of files:

| module | models |
|---|---|
| Base, Decimal | Option/Result, string helpers, `Long.toString`/`Long.parseLong` |
| AuctionConstants, RedisKeys, Redis | Redis key and topic names, the Redis template |
| Users, ProductEntity | the user and product entities and repositories |
| AuctionEngine | `AuctionService` (bidding, status broadcast) |
| AuctionClosing | `AuctionScheduler` (closing expired auctions) |
| ProductView, Products | `ProductResponse`, `ProductService` |
| OAuth, Tokens, AuthEndpoints, LoginSuccess, JwtFilter, StompAuth | login, token cookies, reissue, logout, request and STOMP authentication |
| SecurityRules, Validation, UserEndpoints | authorization rules and CORS, request validation, `/users/me` |
| AxiosRefresh, CookieReader, DateFormat, AuthApi | the front end's HTTP client, cookie and date utilities, logout |
| StompClients, StompContext, UseStomp | the stompjs client, the shared connection, the per-component hook |
| ProductDetail, HomePage | the product page's live updates and bid form, the infinite product list |


## Model

| member | source | states |
|---|---|---|
| Decimal.IntToString | backend/src/main/java/io/github/suho149/realtime_auction/domain/auction/service/AuctionService.java:55 | `String.valueOf` of a long: a non-empty string of digits with at most a leading '-' |
| Decimal.ParseLong | backend/src/main/java/io/github/suho149/realtime_auction/domain/auction/service/AuctionService.java:45 | `Long.parseLong`: a parse succeeds only on a non-empty string |
| Decimal.ParseOfIntToString | backend/src/main/java/io/github/suho149/realtime_auction/domain/auction/service/AuctionService.java:45-55 | a bid stored with `String.valueOf` is read back by `Long.parseLong` as the same amount |
| Decimal.IntToStringInjective | backend/src/main/java/io/github/suho149/realtime_auction/global/constant/AuctionConstants.java:21-31 | distinct ids render as distinct numerals |
| AuctionConstants.AuctionKey | backend/src/main/java/io/github/suho149/realtime_auction/global/constant/AuctionConstants.java:21-31 | the key of each kind is the string its builder makes: "auction:" + id + suffix |
| AuctionConstants.ThreeKeysDistinct | backend/src/main/java/io/github/suho149/realtime_auction/global/constant/AuctionConstants.java:15-31 | the highest-bid, highest-bidder and bidders keys of one product are pairwise distinct |
| AuctionConstants.AuctionKeyInjective | backend/src/main/java/io/github/suho149/realtime_auction/global/constant/AuctionConstants.java:21-31 | equal per-auction keys have the same product id and the same kind |
| AuctionConstants.DistinctProductsDistinctKeys | backend/src/main/java/io/github/suho149/realtime_auction/global/constant/AuctionConstants.java:21-31 | keys of different products never collide, whatever their kinds |
| AuctionConstants.LockKeyIsNoAuctionKey | backend/src/main/java/io/github/suho149/realtime_auction/global/constant/AuctionConstants.java:12-35 | the lock name "auction_lock:" + id is never an "auction:"-prefixed key |
| AuctionConstants.TopicPathInjective | backend/src/main/java/io/github/suho149/realtime_auction/global/constant/AuctionConstants.java:37-39 | distinct products have distinct topics |
| AuctionConstants.TopicIsNotErrorQueue | backend/src/main/java/io/github/suho149/realtime_auction/global/constant/AuctionConstants.java:9 | every topic starts with "/topic/auctions/" and is never the private error queue |
| RedisKeys.Render | backend/src/main/java/io/github/suho149/realtime_auction/global/constant/AuctionConstants.java:21-31 | the string of an auction key is its builder's string; a refresh-token key is "RT:" + email |
| RedisKeys.RenderInjective | backend/src/main/java/io/github/suho149/realtime_auction/global/constant/AuctionConstants.java:21-31 | distinct keys render as distinct strings, so keys can be compared as values |
| RedisKeys.AuctionKeys | backend/src/main/java/io/github/suho149/realtime_auction/domain/product/service/ProductService.java:73-77 | the keys of one auction are exactly its three per-auction keys |
| Redis.RedisStore.Get | backend/src/main/java/io/github/suho149/realtime_auction/domain/auction/service/AuctionService.java:44 | `opsForValue().get`: a value exactly when the key holds one |
| Redis.RedisStore.Size | backend/src/main/java/io/github/suho149/realtime_auction/domain/auction/service/AuctionService.java:77 | `opsForSet().size`: the number of members, 0 for a missing key |
| Redis.RedisStore.Set | backend/src/main/java/io/github/suho149/realtime_auction/domain/auction/service/AuctionService.java:55-56 | `set(key, value)`: only that key changes, and its expiry is dropped |
| Redis.RedisStore.SetWithTtl | backend/src/main/java/io/github/suho149/realtime_auction/global/handler/OAuth2LoginSuccessHandler.java:42-47 | `set(key, value, ttl, MILLISECONDS)`: the value and the expiry of that key only |
| Redis.RedisStore.Add | backend/src/main/java/io/github/suho149/realtime_auction/domain/auction/service/AuctionService.java:57 | `opsForSet().add`: the set gains the member, created when missing |
| Redis.RedisStore.Delete | backend/src/main/java/io/github/suho149/realtime_auction/domain/auction/scheduler/AuctionScheduler.java:75-77 | `delete(key)`: the key disappears whatever it held; nothing else changes |
| Redis.RedisStore.DeleteAll | backend/src/main/java/io/github/suho149/realtime_auction/domain/product/service/ProductService.java:78 | `delete(keys)`: every listed key disappears; nothing else changes |
| Users.UserRepository.FindByEmail | backend/src/main/java/io/github/suho149/realtime_auction/domain/user/repository/UserRepository.java:9 | `findByEmail`: a user exactly when one is stored under that e-mail, and it has that e-mail |
| ProductEntity.Product.constructor | backend/src/main/java/io/github/suho149/realtime_auction/domain/product/entity/Product.java:58-67 | the builder stores the given columns, status SELLING, no id, winner, price or images |
| ProductEntity.Closed | backend/src/main/java/io/github/suho149/realtime_auction/domain/product/entity/Product.java:52-56 | closing sets winner and price to the arguments (nulls included) and status SOLD_OUT, and keeps every other column |
| ProductEntity.Product.CloseAuction | backend/src/main/java/io/github/suho149/realtime_auction/domain/product/entity/Product.java:52-56 | the entity's columns become `Closed` of the old columns |
| ProductEntity.CloseAuctionIdempotent | backend/src/main/java/io/github/suho149/realtime_auction/domain/product/entity/Product.java:52-56 | closing twice with the same arguments is closing once |
| ProductEntity.Product.AddImage | backend/src/main/java/io/github/suho149/realtime_auction/domain/product/service/ProductService.java:53-57 | `addImage` appends the image to the product's ordered image list |
| ProductEntity.ProductRepository.FindById | backend/src/main/java/io/github/suho149/realtime_auction/domain/product/repository/ProductRepository.java:25-26 | the product with that id when one exists, none exactly when no row has it |
| ProductEntity.ProductRepository.Save | backend/src/main/java/io/github/suho149/realtime_auction/domain/product/service/ProductService.java:62-63 | `save` appends the product under the next identity value and sets its id |
| ProductEntity.HasIdsDistinct | backend/src/main/java/io/github/suho149/realtime_auction/domain/product/service/ProductService.java:62-63 | the products of the table are distinct objects with distinct ids |
| AuctionEngine.Decide | backend/src/main/java/io/github/suho149/realtime_auction/domain/auction/service/AuctionService.java:41-52 | no product, malformed stored bid, too low or accepted; the amount to beat is the stored bid, else the starting price; accepted iff strictly greater |
| AuctionEngine.StatusFor | backend/src/main/java/io/github/suho149/realtime_auction/domain/auction/service/AuctionService.java:74-85 | the broadcast status: stored bid or 0, stored bidder or "입찰자 없음", bidders-set size; a malformed bid throws |
| AuctionEngine.StatusAfterBid | backend/src/main/java/io/github/suho149/realtime_auction/domain/auction/service/AuctionService.java:55-57 | after an accepted bid the status carries exactly the new amount, the bidder and the new set size |
| AuctionEngine.StoredBidAfter | backend/src/main/java/io/github/suho149/realtime_auction/domain/auction/service/AuctionService.java:55 | after an accepted bid the stored highest bid reads back as the amount |
| AuctionEngine.BidKeepsWellFormed | backend/src/main/java/io/github/suho149/realtime_auction/domain/auction/service/AuctionService.java:55 | an accepted bid keeps every stored highest bid a numeral |
| AuctionEngine.BidderCountMonotone | backend/src/main/java/io/github/suho149/realtime_auction/domain/auction/service/AuctionService.java:57 | no bidder count shrinks under a bid, and a repeat bidder changes no set |
| AuctionEngine.DeleteKeepsWellFormed | backend/src/main/java/io/github/suho149/realtime_auction/domain/auction/scheduler/AuctionScheduler.java:75-77 | deleting keys keeps every stored highest bid a numeral |
| AuctionEngine.Broker.ConvertAndSend | backend/src/main/java/io/github/suho149/realtime_auction/domain/auction/service/AuctionService.java:88 | `convertAndSend` appends one message with that destination and payload |
| AuctionEngine.AuctionService.StartingPriceOf | backend/src/main/java/io/github/suho149/realtime_auction/domain/auction/service/AuctionService.java:41-45 | the starting price exactly when the product exists |
| AuctionEngine.AuctionService.BroadcastAuctionStatus | backend/src/main/java/io/github/suho149/realtime_auction/domain/auction/service/AuctionService.java:74-89 | exactly one message, `StatusFor`, to the product's topic; nothing when the stored bid is malformed |
| AuctionEngine.AuctionService.ApplyBid | backend/src/main/java/io/github/suho149/realtime_auction/domain/auction/service/AuctionService.java:55-71 | the three writes of an accepted bid, then one broadcast carrying the new amount, bidder and count |
| AuctionEngine.AuctionService.PlaceBid | backend/src/main/java/io/github/suho149/realtime_auction/domain/auction/service/AuctionService.java:26-72 | without the lock, the product, a numeric stored bid or a higher amount: store and broker unchanged; else the three writes and one status; keeps bids numerals, topics only, counts monotone |
| AuctionClosing.Selected | backend/src/main/java/io/github/suho149/realtime_auction/domain/auction/scheduler/AuctionScheduler.java:34-37 | exactly the products ending strictly before now that are SELLING (the model keeps table order; the query promises none) |
| AuctionClosing.NothingSelected | backend/src/main/java/io/github/suho149/realtime_auction/domain/auction/scheduler/AuctionScheduler.java:39-42 | a table without a SELLING product past its end time selects nothing |
| AuctionClosing.LeftOutDoesNotQualify | backend/src/main/java/io/github/suho149/realtime_auction/domain/auction/scheduler/AuctionScheduler.java:34-37 | a product left out does not qualify |
| AuctionClosing.Settle | backend/src/main/java/io/github/suho149/realtime_auction/domain/auction/scheduler/AuctionScheduler.java:51-72 | a winner with the parsed price iff both keys are stored and the bidder is a user; otherwise neither winner nor price |
| AuctionClosing.SettlementUnaffected | backend/src/main/java/io/github/suho149/realtime_auction/domain/auction/scheduler/AuctionScheduler.java:74-77 | closing other auctions first leaves a product's own settlement unchanged |
| AuctionClosing.WithoutOneMore | backend/src/main/java/io/github/suho149/realtime_auction/domain/auction/scheduler/AuctionScheduler.java:75-77 | deleting one more product's keys removes exactly its three keys |
| AuctionClosing.DeleteThree | backend/src/main/java/io/github/suho149/realtime_auction/domain/auction/scheduler/AuctionScheduler.java:75-77 | the three `delete` calls remove exactly the auction's keys |
| AuctionClosing.SoldOut | backend/src/main/java/io/github/suho149/realtime_auction/domain/product/entity/Product.java:55 | every closed product is SOLD_OUT |
| AuctionClosing.NothingLeft | backend/src/main/java/io/github/suho149/realtime_auction/domain/auction/scheduler/AuctionScheduler.java:34-37 | after a run nothing is left to select, so an immediate rerun closes nothing |
| AuctionClosing.AuctionScheduler.CloseAuctions | backend/src/main/java/io/github/suho149/realtime_auction/domain/auction/scheduler/AuctionScheduler.java:30-79 | each selected product is closed with its settlement and loses its three keys; other products and keys untouched; nothing left to select |
| AuctionClosing.AuctionScheduler.CloseAll | backend/src/main/java/io/github/suho149/realtime_auction/domain/auction/scheduler/AuctionScheduler.java:44-78 | the loop: every product of the selection closed in order, others untouched |
| AuctionClosing.AuctionScheduler.CloseAt | backend/src/main/java/io/github/suho149/realtime_auction/domain/auction/scheduler/AuctionScheduler.java:44-78 | one loop iteration: the products before i+1 closed with their settlements and their keys gone |
| AuctionClosing.AuctionScheduler.CloseOne | backend/src/main/java/io/github/suho149/realtime_auction/domain/auction/scheduler/AuctionScheduler.java:45-77 | one product closed with the settlement read from the store, its three keys deleted |
| ProductView.ImageUrls | backend/src/main/java/io/github/suho149/realtime_auction/domain/product/dto/ProductResponse.java:79-81 | the image URLs in image order |
| ProductView.Thumbnail | backend/src/main/java/io/github/suho149/realtime_auction/domain/product/dto/ProductResponse.java:83 | the first URL, none exactly when there are no images |
| ProductView.Of | backend/src/main/java/io/github/suho149/realtime_auction/domain/product/dto/ProductResponse.java:51-101 | price: winning price if sold with one, else live bid, else starting price; bidder: winner, else stored e-mail, else "입찰자 없음"; count copied; URLs in order; columns copied |
| ProductView.ForList | backend/src/main/java/io/github/suho149/realtime_auction/domain/product/dto/ProductResponse.java:104-127 | price: winning price else starting price; bidder: winner else default; empty description, 0 count, no URLs, first image as thumbnail |
| ProductView.ClosedViewsAgree | backend/src/main/java/io/github/suho149/realtime_auction/domain/product/dto/ProductResponse.java:56-66 | for an auction closed with a winner both views show the winner and the winning price |
| ProductView.ClosedWithoutWinnerViews | backend/src/main/java/io/github/suho149/realtime_auction/domain/product/dto/ProductResponse.java:58-72 | for an auction closed without a winner the detail view still shows live state |
| ProductView.ListIgnoresLiveBids | backend/src/main/java/io/github/suho149/realtime_auction/domain/product/dto/ProductResponse.java:105 | the list view ignores a live bid that the detail view shows |
| ProductView.ThumbnailsAgree | backend/src/main/java/io/github/suho149/realtime_auction/domain/product/dto/ProductResponse.java:83-109 | both views pick the same thumbnail |
| Products.AuctionStateIn | backend/src/main/java/io/github/suho149/realtime_auction/domain/product/service/ProductService.java:103-113 | the stored bid parsed (throws when malformed), the stored bidder, the set size or 0 |
| Products.NoStateAfterCleanup | backend/src/main/java/io/github/suho149/realtime_auction/domain/product/service/ProductService.java:72-79 | after the cleanup a product has no bid, no bidder and 0 bidders |
| Products.StateAfterBid | backend/src/main/java/io/github/suho149/realtime_auction/domain/product/service/ProductService.java:103-113 | after an accepted bid the detail state reads the new amount, bidder and count |
| Products.DetailMatchesBroadcast | backend/src/main/java/io/github/suho149/realtime_auction/domain/product/service/ProductService.java:89-100 | after an accepted bid on a SELLING product the detail view and the broadcast show the same price and count |
| Products.NoStateViewAndBroadcast | backend/src/main/java/io/github/suho149/realtime_auction/domain/product/service/ProductService.java:89-100 | with no state the detail view shows the starting price while the broadcast shows 0 |
| Products.PageOf | backend/src/main/java/io/github/suho149/realtime_auction/domain/product/repository/ProductRepository.java:20-21 | page `number` of a sequence of rows: at most `size` rows, in the sequence's order, `last` iff no row follows |
| Products.PagesArePrefix | backend/src/main/java/io/github/suho149/realtime_auction/domain/product/service/ProductService.java:83-86 | pages 0 to n-1 of one sequence of rows, concatenated, are a prefix of it: no gap, no repeat |
| Products.ReadToLastPage | backend/src/main/java/io/github/suho149/realtime_auction/domain/product/service/ProductService.java:83-86 | reading up to a last page reads the whole sequence |
| Products.ListViews | backend/src/main/java/io/github/suho149/realtime_auction/domain/product/service/ProductService.java:84-85 | each row through `forList`, in order |
| Products.ListViewsAppend | backend/src/main/java/io/github/suho149/realtime_auction/domain/product/service/ProductService.java:84-85 | the list view distributes over concatenation |
| Products.ListPage | backend/src/main/java/io/github/suho149/realtime_auction/domain/product/service/ProductService.java:83-86 | a page of the list view: the rows of that page through `forList` |
| Products.PagesFlatten | backend/src/main/java/io/github/suho149/realtime_auction/domain/product/service/ProductService.java:83-86 | the contents of pages 0 to n-1 are the list view of the rows they cover |
| Products.ListedPagesCoverRows | backend/src/main/java/io/github/suho149/realtime_auction/domain/product/service/ProductService.java:83-86 | the contents up to a last page are the list view of every row |
| Products.ProductService.CreateProduct | backend/src/main/java/io/github/suho149/realtime_auction/domain/product/service/ProductService.java:34-69 | unknown seller: IllegalArgumentException and nothing saved; else the new product (request fields, seller, SELLING, images in upload order) under the next id, and its three keys deleted |
| Products.ProductService.BuildProduct | backend/src/main/java/io/github/suho149/realtime_auction/domain/product/service/ProductService.java:39-59 | a fresh product with the request's columns, the seller, SELLING and one image per URL |
| Products.ProductService.AddImages | backend/src/main/java/io/github/suho149/realtime_auction/domain/product/service/ProductService.java:50-59 | one image per URL, in order, each linked to the product, after the existing ones |
| Products.ProductService.SaveNew | backend/src/main/java/io/github/suho149/realtime_auction/domain/product/service/ProductService.java:62-63 | the product is appended under the next id, which is returned |
| Products.ProductService.CleanupAuctionRedisData | backend/src/main/java/io/github/suho149/realtime_auction/domain/product/service/ProductService.java:72-79 | exactly the three keys of that product are deleted |
| Products.ProductService.GetAuctionStateFromRedis | backend/src/main/java/io/github/suho149/realtime_auction/domain/product/service/ProductService.java:103-113 | NumberFormatException exactly when a stored highest bid is not a numeral; otherwise the parsed bid (null when absent), the stored bidder and the size of the bidder set (0 when absent) |
| Products.ProductService.GetProduct | backend/src/main/java/io/github/suho149/realtime_auction/domain/product/service/ProductService.java:89-100 | unknown id: IllegalArgumentException; else `Of` of the product and its state, the state read's error passed on |
| Products.ProductService.GetProducts | backend/src/main/java/io/github/suho149/realtime_auction/domain/product/service/ProductService.java:83-86 | the page the Pageable names, cut from the table as findAllWithSeller's ORDER BY returns it for the request's sort, through `forList`, in that order; `last` iff no row follows |
| Products.SortedUnique | backend/src/main/java/io/github/suho149/realtime_auction/domain/product/repository/ProductRepository.java:20-21 | when the sort column tells rows apart, ORDER BY has exactly one answer |
| Products.ProductService.IdSortHasOneOrder | backend/src/main/java/io/github/suho149/realtime_auction/domain/product/controller/ProductController.java:36-38 | stored products have distinct ids, so the default sort by `id` gives one order to every fetch |
| Products.TiedRowsCanRepeat | frontend/src/api/productApi.ts:15 | with two products tied on `auctionEndTime` both orders answer the sort, and pages of one row cut from the two read one product twice and the other never |
| Products.SortedTail | backend/src/main/java/io/github/suho149/realtime_auction/domain/product/repository/ProductRepository.java:20-21 | a tail of a sorted sequence is sorted |
| Products.ProductService.ListingCoversTable | backend/src/main/java/io/github/suho149/realtime_auction/domain/product/service/ProductService.java:83-86 | fetching pages 0, 1, ... up to the last, all cut from one answer to the request's sort, lists that answer through `forList`: every product once, in the request's sort order |
| OAuth.Find | backend/src/main/java/io/github/suho149/realtime_auction/domain/user/dto/OAuthAttributes.java:72-77 | GOOGLE for "google", NAVER for "naver", IllegalArgumentException for any other id |
| OAuth.FindRegistrationId | backend/src/main/java/io/github/suho149/realtime_auction/domain/user/dto/OAuthAttributes.java:45-77 | each provider is found by its own registration id |
| OAuth.GetString | backend/src/main/java/io/github/suho149/realtime_auction/domain/user/dto/OAuthAttributes.java:47-49 | `(String) map.get(key)`: null when absent, the text when a string, ClassCastException otherwise |
| OAuth.Build | backend/src/main/java/io/github/suho149/realtime_auction/domain/user/dto/OAuthAttributes.java:46-51 | name, e-mail and picture read from the given keys, with the given attributes |
| OAuth.From | backend/src/main/java/io/github/suho149/realtime_auction/domain/user/dto/OAuthAttributes.java:45-61 | GOOGLE reads top-level keys; NAVER reads the nested "response" map (profile_image as picture) and keeps it; a missing response throws NullPointerException |
| OAuth.Extract | backend/src/main/java/io/github/suho149/realtime_auction/domain/user/dto/OAuthAttributes.java:80-84 | the mapper's fields with nameAttributeKey set to the argument; the mapper's failure passed on |
| OAuth.Of | backend/src/main/java/io/github/suho149/realtime_auction/domain/user/dto/OAuthAttributes.java:29-32 | an unsupported id throws; otherwise the provider's extract |
| OAuth.ToEntity | backend/src/main/java/io/github/suho149/realtime_auction/domain/user/dto/OAuthAttributes.java:34-41 | a user with the same name, e-mail and picture, and role USER |
| OAuth.GoogleLogin | backend/src/main/java/io/github/suho149/realtime_auction/domain/user/dto/OAuthAttributes.java:45-51 | a Google profile with string fields maps to that user |
| OAuth.NaverLogin | backend/src/main/java/io/github/suho149/realtime_auction/domain/user/dto/OAuthAttributes.java:53-60 | a Naver profile with string fields maps to that user |
| OAuth.MissingFieldsAreNull | backend/src/main/java/io/github/suho149/realtime_auction/domain/user/dto/OAuthAttributes.java:45-60 | missing fields become nulls, not errors |
| Tokens.CookieJar.Get | backend/src/main/java/io/github/suho149/realtime_auction/global/jwt/JwtAuthenticationFilter.java:25-27 | a cookie's value exactly when the request carries it |
| Tokens.CookieJar.Add | backend/src/main/java/io/github/suho149/realtime_auction/domain/auth/controller/AuthController.java:73 | `addCookie` sets that cookie's value and max age only |
| Tokens.CookieJar.Delete | backend/src/main/java/io/github/suho149/realtime_auction/domain/auth/controller/AuthController.java:35-36 | `deleteCookie` removes that cookie only |
| Tokens.ToInt | backend/src/main/java/io/github/suho149/realtime_auction/domain/auth/controller/AuthController.java:72 | Java's `(int)` cast: the value congruent modulo 2^32 in the int range, the value itself when in range |
| Tokens.CookieMaxAge | backend/src/main/java/io/github/suho149/realtime_auction/domain/auth/controller/AuthController.java:72 | the lifetime in whole seconds when it fits an int |
| Tokens.MaxAgeWraps | backend/src/main/java/io/github/suho149/realtime_auction/global/handler/OAuth2LoginSuccessHandler.java:49 | a lifetime of 2^31 seconds narrows to a negative max age |
| Tokens.BearerToken | backend/src/main/java/io/github/suho149/realtime_auction/global/handler/StompHandler.java:32-33 | the token iff the value starts with "Bearer ", and the value is "Bearer " + token |
| Tokens.BearerRoundTrip | backend/src/main/java/io/github/suho149/realtime_auction/global/handler/StompHandler.java:32-33 | the token a client puts after "Bearer " is the token the server checks |
| AuthEndpoints.DecideReissue | backend/src/main/java/io/github/suho149/realtime_auction/domain/auth/controller/AuthController.java:44-69 | no cookie, invalid token, stored token missing or different, or issue for the token's subject; each branch iff its condition |
| AuthEndpoints.ReissueResponse | backend/src/main/java/io/github/suho149/realtime_auction/domain/auth/controller/AuthController.java:48-75 | 200 iff a token is issued, 401 otherwise |
| AuthEndpoints.AuthController.Logout | backend/src/main/java/io/github/suho149/realtime_auction/domain/auth/controller/AuthController.java:28-39 | "RT:" + name deleted when authenticated, store untouched otherwise; both token cookies deleted; 200 |
| AuthEndpoints.AuthController.Reissue | backend/src/main/java/io/github/suho149/realtime_auction/domain/auth/controller/AuthController.java:44-76 | on success only the access_token cookie is set, with the refresh lifetime in seconds; otherwise 401 and nothing changes; the store is never written |
| AuthEndpoints.LogoutRevokes | backend/src/main/java/io/github/suho149/realtime_auction/domain/auth/controller/AuthController.java:31 | after a logout the user's refresh cookie no longer reissues |
| AuthEndpoints.OtherUsersIrrelevant | backend/src/main/java/io/github/suho149/realtime_auction/domain/auth/controller/AuthController.java:63-64 | another user's stored token does not change a reissue decision |
| LoginSuccess.CookiesAfterLogin | backend/src/main/java/io/github/suho149/realtime_auction/global/handler/OAuth2LoginSuccessHandler.java:49-56 | both token cookies replaced with the new tokens and the same max age; other cookies kept |
| LoginSuccess.LoginSuccessHandler.OnAuthenticationSuccess | backend/src/main/java/io/github/suho149/realtime_auction/global/handler/OAuth2LoginSuccessHandler.java:31-63 | "RT:" + email holds the refresh token with the refresh lifetime as expiry; both cookies set; redirect to http://localhost:3000/ |
| LoginSuccess.LoginThenReissue | backend/src/main/java/io/github/suho149/realtime_auction/global/handler/OAuth2LoginSuccessHandler.java:42-56 | right after login, a reissue with the issued refresh cookie issues a token for the same user |
| LoginSuccess.SecondLoginRevokesFirst | backend/src/main/java/io/github/suho149/realtime_auction/global/handler/OAuth2LoginSuccessHandler.java:42-47 | a second login of the same user makes the first refresh cookie fail the store check |
| JwtFilter.CookieAuthentication | backend/src/main/java/io/github/suho149/realtime_auction/global/jwt/JwtAuthenticationFilter.java:25-30 | an authentication iff the access_token cookie is present and valid, and then the provider's one for it |
| JwtFilter.FilterChain.DoFilter | backend/src/main/java/io/github/suho149/realtime_auction/global/jwt/JwtAuthenticationFilter.java:34 | the chain continues once |
| JwtFilter.JwtAuthenticationFilter.DoFilterInternal | backend/src/main/java/io/github/suho149/realtime_auction/global/jwt/JwtAuthenticationFilter.java:24-35 | a valid cookie sets the context's authentication, otherwise the context is untouched; the chain runs exactly once |
| StompAuth.FirstNativeHeader | backend/src/main/java/io/github/suho149/realtime_auction/global/handler/StompHandler.java:29 | the first value of the native header, none when absent or empty |
| StompAuth.ConnectUser | backend/src/main/java/io/github/suho149/realtime_auction/global/handler/StompHandler.java:27-40 | a user iff the frame is CONNECT with "Bearer " + a valid token, and then that token's authentication |
| StompAuth.Authenticated | backend/src/main/java/io/github/suho149/realtime_auction/global/handler/StompHandler.java:27-40 | the accessor's headers after the body: the user `ConnectUser` finds, if any, and command and native headers kept |
| StompAuth.StompHandler.PreSend | backend/src/main/java/io/github/suho149/realtime_auction/global/handler/StompHandler.java:23-48 | as written: the same message is returned with its headers unchanged, since the user is set on a copy |
| StompAuth.StompHandler.PreSendThroughAccessor | backend/src/main/java/io/github/suho149/realtime_auction/global/handler/StompHandler.java:23-48 | corrected: the same message is returned, its headers being `Authenticated` of the old ones |
| StompAuth.UserSetOnCopyOnly | backend/src/main/java/io/github/suho149/realtime_auction/global/handler/StompHandler.java:24-47 | a valid-token CONNECT without a user gets the token's authentication on the accessor, which then differs from the returned frame |
| StompAuth.ClientTokenAuthenticates | backend/src/main/java/io/github/suho149/realtime_auction/global/handler/StompHandler.java:32-39 | for a CONNECT carrying "Bearer " + a valid token, the authentication preSend computes is the token's subject's |
| StompAuth.OnlyConnectAuthenticates | backend/src/main/java/io/github/suho149/realtime_auction/global/handler/StompHandler.java:27 | preSend computes no user for a frame other than CONNECT |
| SecurityRules.FirstMatch | backend/src/main/java/io/github/suho149/realtime_auction/global/config/SecurityConfig.java:66-72 | the access of the first matching rule, authenticated when none matches |
| SecurityRules.AuthorizeSpec | backend/src/main/java/io/github/suho149/realtime_auction/global/config/SecurityConfig.java:66-72 | permitted iff OPTIONS, or GET on the product catalogue, or a public path; otherwise authenticated |
| SecurityRules.OptionsRule | backend/src/main/java/io/github/suho149/realtime_auction/global/config/SecurityConfig.java:67 | the first rule matches exactly the OPTIONS requests |
| SecurityRules.CatalogRule | backend/src/main/java/io/github/suho149/realtime_auction/global/config/SecurityConfig.java:69 | the second rule matches exactly GET on "/api/v1/products" and below |
| SecurityRules.PublicRule | backend/src/main/java/io/github/suho149/realtime_auction/global/config/SecurityConfig.java:70 | the third rule matches exactly "/", "/login", "/oauth2/**" and the reissue path |
| SecurityRules.CatalogWritesNeedLogin | backend/src/main/java/io/github/suho149/realtime_auction/global/config/SecurityConfig.java:69-71 | writes to the catalogue need authentication |
| SecurityRules.CatalogNotPublic | backend/src/main/java/io/github/suho149/realtime_auction/global/config/SecurityConfig.java:69-70 | no catalogue path is public |
| SecurityRules.CorsFor | backend/src/main/java/io/github/suho149/realtime_auction/global/config/SecurityConfig.java:36-48 | origin http://localhost:3000 only, the listed methods (no HEAD or TRACE), all headers, credentials, 3600 s preflight cache, on every path |
| Validation.GraceBoundary | backend/src/main/java/io/github/suho149/realtime_auction/global/validation/NotBeforeNowValidator.java:21-24 | a time exactly 10 minutes before now is refused; one second later is accepted |
| Validation.NotBeforeNowMonotone | backend/src/main/java/io/github/suho149/realtime_auction/global/validation/NotBeforeNowValidator.java:13-25 | a later time than a valid one is valid, and now is valid |
| Validation.NotBlankViolations | backend/src/main/java/io/github/suho149/realtime_auction/domain/product/dto/ProductCreateRequest.java:15-19 | no violation iff present and not blank; else exactly the field's message |
| Validation.PriceViolations | backend/src/main/java/io/github/suho149/realtime_auction/domain/product/dto/ProductCreateRequest.java:21-23 | no violation iff present and at least 100; else the missing or too-low message |
| Validation.TimeViolations | backend/src/main/java/io/github/suho149/realtime_auction/domain/product/dto/ProductCreateRequest.java:25-31 | no violation iff present and not before now minus 10 minutes; else the missing or past message |
| Validation.Violations | backend/src/main/java/io/github/suho149/realtime_auction/domain/product/dto/ProductCreateRequest.java:15-31 | at most five messages: one per field at most |
| Validation.ViolationsSpec | backend/src/main/java/io/github/suho149/realtime_auction/domain/product/dto/ProductCreateRequest.java:15-31 | no violation iff every field constraint holds |
| Validation.EndBeforeStartAccepted | backend/src/main/java/io/github/suho149/realtime_auction/domain/product/dto/ProductCreateRequest.java:25-31 | a request whose end precedes its start is accepted |
| Validation.HandleInvalidArgument | backend/src/main/java/io/github/suho149/realtime_auction/global/error/GlobalExceptionHandler.java:17-25 | 400 with code INVALID_INPUT; the messages joined by ", ": empty for none, one message alone without separator |
| Validation.JoinLength | backend/src/main/java/io/github/suho149/realtime_auction/global/error/GlobalExceptionHandler.java:19-21 | the joined message's length is the sum of the parts plus one separator between each two |
| Validation.EmptyRequestMessage | backend/src/main/java/io/github/suho149/realtime_auction/global/error/GlobalExceptionHandler.java:17-25 | an empty request yields the five required-field messages joined by ", " |
| UserEndpoints.InfoOf | backend/src/main/java/io/github/suho149/realtime_auction/domain/user/controller/UserController.java:36 | the response carries the user's name, e-mail and picture |
| UserEndpoints.GetMyInfo | backend/src/main/java/io/github/suho149/realtime_auction/domain/user/controller/UserController.java:23-37 | 401 without an authenticated principal; UserNotFoundException for an unknown e-mail; else 200 with that user's info |
| UserEndpoints.OwnProfile | backend/src/main/java/io/github/suho149/realtime_auction/domain/user/controller/UserController.java:29-36 | a stored user's own request returns that user's e-mail |
| AxiosRefresh.InitInv | frontend/src/api/axiosInstance.ts:9-11 | the initial state satisfies the interceptor invariant |
| AxiosRefresh.StepInv | frontend/src/api/axiosInstance.ts:24-66 | every event keeps the invariant (refresh flag, awaited reissue and queue consistent) |
| AxiosRefresh.RunInv | frontend/src/api/axiosInstance.ts:24-66 | any sequence of events keeps the invariant |
| AxiosRefresh.ReplayAllFacts | frontend/src/api/axiosInstance.ts:13-22 | `processQueue(null)` resolves (replays) every queued request in insertion order and touches nothing else |
| AxiosRefresh.RejectAllFacts | frontend/src/api/axiosInstance.ts:13-22 | `processQueue(error)` rejects every queued request in insertion order with that error |
| AxiosRefresh.PassThrough | frontend/src/api/axiosInstance.ts:25-32 | successes and non-401 or `_retry` errors settle unchanged and leave the refresh state alone |
| AxiosRefresh.FirstUnauthorizedStartsRefresh | frontend/src/api/axiosInstance.ts:42-47 | a 401 while not refreshing marks `_retry`, sets isRefreshing and sends exactly one reissue POST |
| AxiosRefresh.UnauthorizedWhileRefreshingQueued | frontend/src/api/axiosInstance.ts:33-40 | a 401 while refreshing is queued and sends nothing |
| AxiosRefresh.ReissueSuccessReplays | frontend/src/api/axiosInstance.ts:47-61 | a successful reissue sends the original request, then the queued ones in order (their replays run in later `.then` callbacks), and clears isRefreshing and the queue |
| AxiosRefresh.ReissueFailureRejects | frontend/src/api/axiosInstance.ts:52-61 | a failed reissue rejects the queue then the original, goes to /login, clears the refresh; cookies untouched |
| AxiosRefresh.StuckForever | frontend/src/api/axiosInstance.ts:32-40 | once the awaited reissue is queued, no event ends the refresh or settles the original |
| AxiosRefresh.ReissueUnauthorizedHangs | frontend/src/api/axiosInstance.ts:32-47 | as written, a 401 on the reissue POST queues it behind itself: the refresh never ends and no redirect happens |
| AxiosRefresh.QueueOnlyGrows | frontend/src/api/axiosInstance.ts:33-40 | while stuck the queue only grows |
| AxiosRefresh.GuardedReissueAlwaysEnds | frontend/src/api/axiosInstance.ts:45-61 | with the reissue POST marked `_retry`, every answer ends the refresh, replaying the original first or rejecting it |
| AxiosRefresh.GuardedReissueMarked | frontend/src/api/axiosInstance.ts:42-47 | the corrected interceptor marks the reissue POST it sends |
| AxiosRefresh.QueuedReplayUnguarded | frontend/src/api/axiosInstance.ts:37-39 | a replayed request is not marked `_retry`, so its 401 starts another refresh |
| AxiosRefresh.AxiosInstance.Dispatch | frontend/src/api/axiosInstance.ts:38 | sending a request is the model's `Send` |
| AxiosRefresh.AxiosInstance.Call | frontend/src/api/axiosInstance.ts:3-6 | a call sends a new request under the next id, as `Step` says |
| AxiosRefresh.AxiosInstance.ProcessQueueResolve | frontend/src/api/axiosInstance.ts:13-22 | the loop over the queue replays it in order and empties it |
| AxiosRefresh.AxiosInstance.ProcessQueueReject | frontend/src/api/axiosInstance.ts:13-22 | the loop over the queue rejects it in order and empties it |
| AxiosRefresh.AxiosInstance.Respond | frontend/src/api/axiosInstance.ts:24-66 | the interceptor's response handling, as `Step` says |
| CookieReader.FindSpec | frontend/src/utils/cookie.ts:3 | `indexOf`-style search: the first occurrence, or none when there is none |
| CookieReader.SplitJoin | frontend/src/utils/cookie.ts:3 | `split` pieces joined with the separator give back the string |
| CookieReader.SplitAtFirst | frontend/src/utils/cookie.ts:3 | one piece iff no separator; else the text before the first one, then the split of the rest |
| CookieReader.FirstPiece | frontend/src/utils/cookie.ts:5 | `split(';').shift()`: the prefix before the first ';' |
| CookieReader.GetCookieValue | frontend/src/utils/cookie.ts:1-8 | a result is never empty and contains no ';' |
| CookieReader.GetCookieValueSpec | frontend/src/utils/cookie.ts:1-8 | the value iff exactly one cookie has the name and its value is not empty; null otherwise |
| CookieReader.SuffixNameNotMatched | frontend/src/utils/cookie.ts:2-3 | a name that only ends another cookie's name is not matched |
| CookieReader.Without | frontend/src/utils/cookie.ts:10-12 | no cookie of that name remains; every other name keeps its count |
| CookieReader.CookieDocument.DeleteCookie | frontend/src/utils/cookie.ts:10-12 | writes name + "=; expires=Thu, 01 Jan 1970 00:00:01 GMT; path=/;" and the cookie disappears |
| CookieReader.DeletedReadsNull | frontend/src/utils/cookie.ts:10-12 | after a deletion the name reads null and every other name reads as before |
| CookieReader.ValueOfWithout | frontend/src/utils/cookie.ts:10-12 | deleting one name does not change another name's value |
| DateFormat.Pad | frontend/src/utils/dateUtils.ts:10 | `padStart(2, '0')`: digits of the same number, exactly two below 100 |
| DateFormat.ParseLocalDateTime | frontend/src/utils/dateUtils.ts:19 | a read-back of the layout succeeds only on 19 characters |
| DateFormat.RoundTrip | frontend/src/utils/dateUtils.ts:9-20 | an in-range date formats to 19 characters whose fields read back as the date, month + 1 |
| DateFormat.FormatInjective | frontend/src/utils/dateUtils.ts:9-20 | distinct in-range dates format differently |
| DateFormat.FourDigitYear | frontend/src/utils/dateUtils.ts:12 | a four-digit year prints as four characters |
| StompClients.ConnectHeaders | frontend/src/context/StompContext.tsx:24-27 | an Authorization header iff the token is present and not empty, and then "Bearer " + token |
| StompClients.CookieTokenReachesServer | frontend/src/hooks/useStomp.ts:18-21 | the access_token cookie's value is the token from which the server's CONNECT handler computes its authentication |
| StompClients.SubscriptionIdsDistinct | frontend/src/context/StompContext.tsx:56-58 | within one connection the client hands out distinct subscription ids |
| StompClients.Remove | frontend/src/context/StompContext.tsx:65 | unsubscribing keeps exactly the subscriptions with other ids |
| StompClients.StompClient.constructor | frontend/src/context/StompContext.tsx:25-38 | the client holds the connect headers and reconnect delay; inactive, no subscriptions |
| StompClients.StompClient.Activate | frontend/src/context/StompContext.tsx:40 | the client is active |
| StompClients.StompClient.Deactivate | frontend/src/context/StompContext.tsx:44 | inactive, disconnected, no subscriptions |
| StompClients.StompClient.Established | frontend/src/context/StompContext.tsx:30 | connected, with no subscriptions yet and the id counter back at 0 |
| StompClients.StompClient.Lost | frontend/src/context/StompContext.tsx:34 | disconnected; subscriptions are gone |
| StompClients.StompClient.Publish | frontend/src/context/StompContext.tsx:50 | the frame is appended to what was sent on a live connection; without one it throws and nothing is sent |
| StompClients.StompClient.Subscribe | frontend/src/context/StompContext.tsx:56 | on a live connection a new subscription with the next id is appended; without one it throws and nothing changes |
| StompClients.StompClient.Unsubscribe | frontend/src/context/StompContext.tsx:65 | on a live connection the subscription with that id is removed; without one it throws and nothing changes |
| StompContext.StompProvider.constructor | frontend/src/context/StompContext.tsx:19-21 | no client, not connected, empty topic map |
| StompContext.StompProvider.Mount | frontend/src/context/StompContext.tsx:23-41 | a fresh client with the cookie's connect headers and a 5000 ms reconnect delay, activated, not yet connected |
| StompContext.StompProvider.OnConnect | frontend/src/context/StompContext.tsx:30-33 | connected becomes true, over a fresh connection with no subscriptions |
| StompContext.StompProvider.OnDisconnect | frontend/src/context/StompContext.tsx:34-37 | after a DISCONNECT receipt, connected becomes false and the connection is gone |
| StompContext.StompProvider.OnWebSocketClose | frontend/src/context/StompContext.tsx:30-37 | a lost socket drops the client's connection while `connected` stays as it was, so a connected provider is left with a dead client |
| StompContext.StompProvider.Publish | frontend/src/context/StompContext.tsx:48-52 | dropped silently while not connected; while connected, sent on a live client and a TypeError on a dead one |
| StompContext.StompProvider.Subscribe | frontend/src/context/StompContext.tsx:54-61 | null while not connected; a TypeError on a dead client; otherwise the next id, recorded under the topic (overwriting) |
| StompContext.StompProvider.Unsubscribe | frontend/src/context/StompContext.tsx:63-67 | nothing while not connected; a TypeError on a dead client; otherwise removed on the client; the topic map never changes |
| StompContext.StompProvider.Unmount | frontend/src/context/StompContext.tsx:43-45 | the client is deactivated |
| UseStomp.StompHook.Effect | frontend/src/hooks/useStomp.ts:15-34 | no client for an empty topic; else a fresh activated client with the cookie's connect headers and a 5000 ms delay |
| UseStomp.StompHook.OnConnect | frontend/src/hooks/useStomp.ts:26-29 | every connection, reconnects included, subscribes the topic once, as sub-0 |
| UseStomp.StompHook.OnConnectionLost | frontend/src/hooks/useStomp.ts:23-29 | the connection and its subscription are gone until the next onConnect |
| UseStomp.StompHook.Publish | frontend/src/hooks/useStomp.ts:44-53 | sent iff connected; otherwise one error logged and nothing sent |
| UseStomp.StompHook.Cleanup | frontend/src/hooks/useStomp.ts:36-41 | the created client is deactivated |
| ProductDetail.LiveFields | frontend/src/pages/ProductDetailPage.tsx:46-48 | the three fields a broadcast patches |
| ProductDetail.LivePatch | frontend/src/pages/ProductDetailPage.tsx:42-50 | no cached product stays none; a cached one is patched |
| ProductDetail.PatchFields | frontend/src/pages/ProductDetailPage.tsx:44-49 | a patch writes the broadcast's price, bidder and count and keeps every other cached field |
| ProductDetail.PatchLastWins | frontend/src/pages/ProductDetailPage.tsx:42-73 | a later broadcast fully replaces an earlier one, for both patches |
| ProductDetail.PatchIdempotent | frontend/src/pages/ProductDetailPage.tsx:42-73 | applying the same broadcast twice is applying it once |
| ProductDetail.PatchesAgree | frontend/src/pages/ProductDetailPage.tsx:42-73 | on a cached product both patches agree; without one the context patch creates an object with only the live fields |
| ProductDetail.BroadcastShown | frontend/src/pages/ProductDetailPage.tsx:68-73 | the patched price and count are those the server read |
| ProductDetail.NumberOf | frontend/src/pages/ProductDetailPage.tsx:92-93 | `Number(s)`: the number for a decimal integer, null otherwise |
| ProductDetail.BidBodyCarriesId | frontend/src/pages/ProductDetailPage.tsx:91-94 | a page for a product id sends that id as a number |
| ProductDetail.CanBid | frontend/src/pages/ProductDetailPage.tsx:102-103 | the form shows only to a logged-in user of a SELLING product |
| ProductDetail.CanBidExactly | frontend/src/pages/ProductDetailPage.tsx:102-103 | `canBid` iff logged in, end time not passed and SELLING; never after closing |
| ProductDetail.ProductDetailPage.SubscribeEffect | frontend/src/pages/ProductDetailPage.tsx:62-80 | nothing without a product id; else the topic and then the error queue, two distinct ids on a live connection, none while not connected, and a TypeError that stops the effect on a dead client |
| ProductDetail.ProductDetailPage.Cleanup | frontend/src/pages/ProductDetailPage.tsx:82-85 | only the returned ids are unsubscribed, the auction topic's first; a dead client throws at the first one |
| ProductDetail.ProductDetailPage.SubmitBid | frontend/src/pages/ProductDetailPage.tsx:88-97 | with a login, an id and a truthy amount, publishes to /app/auctions/bid (dropped while not connected) and clears the input, unless the publish throws; otherwise nothing |
| ProductDetail.ProductDetailPage.ChangeAmount | frontend/src/pages/ProductDetailPage.tsx:152 | the input holds `Number(value)`; a cleared field gives 0, which is not truthy |
| AuthApi.Session.Logout | frontend/src/api/authApi.ts:18-27 | the POST is sent; a failure is logged only; then access_token and refresh_token are deleted in that order |
| AuthApi.TokenNamesWellFormed | frontend/src/api/authApi.ts:24-26 | the two token cookie names are valid and distinct |
| AuthApi.LoggedOutHasNoTokens | frontend/src/api/authApi.ts:18-27 | after logout neither token reads, other cookies read as before, and the next CONNECT carries no Authorization |
| HomePage.GetNextPageParam | frontend/src/pages/HomePage.tsx:39-44 | none iff the last page is `last`; else the number of pages loaded |
| HomePage.Contents | frontend/src/pages/HomePage.tsx:63 | the pages' contents, in load order |
| HomePage.ShownIsPrefix | frontend/src/pages/HomePage.tsx:37-63 | pages loaded from 0 upwards out of one sorted answer show the list view of a prefix of it, all of it once the last page is loaded |
| HomePage.ProductFeed.HasNextPage | frontend/src/pages/HomePage.tsx:39-44 | a next page iff `getNextPageParam` gives one |
| HomePage.ProductFeed.constructor | frontend/src/pages/HomePage.tsx:37 | the first fetch loads page 0 of size 9 of the products sorted by `auctionEndTime` ascending |
| HomePage.ProductFeed.FetchNextPage | frontend/src/pages/HomePage.tsx:39-44 | appends the page `getNextPageParam` names; nothing after a last page |
| HomePage.ProductFeed.OnLastProductVisible | frontend/src/pages/HomePage.tsx:49-60 | the next page is fetched iff the last product intersects and there is a next page |

## Left out

- Concurrency is not modelled. The Redisson lock is a boolean input of `PlaceBid`: acquired or not. The lock's wait and lease times and its release are not modelled. Each method runs alone.
- JPA and Redis are collections:
  - Repositories are sequences of product objects and a map of users.
  - Redis is maps of string values, string sets and expiry times.
  - Expiry itself never fires.
  - Lazy loading, transactions and flushing are not modelled.
- `InterruptedException` while waiting for the lock (AuctionService.java:60-62) is not modelled, since waiting is not modelled.
- The `intValue()` narrowing of the bidder count (AuctionService.java:84 and ProductService.java:111) is not modelled: a set of more than 2^31 bidders is out of scope.
- `PlaceBid` takes `productId` and `bidAmount` as integers, so a request without them is not modelled. In the source a null `bidAmount` makes the comparison at AuctionService.java:48 throw NullPointerException, and a null `productId` is rejected by `findById` at AuctionService.java:41.
- `AuctionClosing.Settle` requires a stored highest bid to be a decimal numeral. The NumberFormatException that `Long.parseLong` would throw at AuctionScheduler.java:57 is not modelled. Every writer of that key in the model stores a numeral (`AuctionEngine.BidKeepsWellFormed`, `AuctionEngine.DeleteKeepsWellFormed`).
- `AuctionClosing.Selected` lists the matching products in table order, and `CloseAuctions` closes them in that order. The derived query at AuctionScheduler.java:34-37 has no ORDER BY, so the database may return them in any order; the contract states membership in both directions, not order.
- `AuctionClosing.AuctionScheduler.CloseAuctions` requires every stored highest bid to be a numeral, for the same reason. The state a malformed bid would leave is not modelled: the transaction rolls back the database changes, but the Redis keys already deleted for earlier products stay deleted.
- The `@Scheduled` timer is not modelled. `CloseAuctions` takes the current time as a parameter.
- Times are integer seconds on one clock. `LocalDateTime`, time zones and `Date` are not modelled, except for the string layout in `DateFormat`.
- Java `Long` arithmetic is unbounded here, so 64-bit overflow is not modelled. The one narrowing the code does, the `(int)` cast of the cookie max age, is modelled by `Tokens.ToInt`.
- `JwtTokenProvider` is not part of this model. Its signing, parsing and expiry checks are a `TokenProvider` value: validity and subject are given functions, and new tokens are inputs.
- `CookieUtil` and `FileStorageService` are not part of this model. Cookies are a map from name to value and max age, and stored image URLs are inputs.
- Spring Security's path matching covers only the patterns the configuration uses. The filter chain and the OAuth2 login flow before the success handler are not modelled.
- `Validation.Violations` lists violations in the order the fields are declared. Bean Validation does not guarantee an order, so only the set of messages is the framework's.
- The source of `Product` (Product.java) lacks the `category` field, the `images` list and the `addImage` method that `ProductService` and `ProductResponse` use. The model includes them as those callers use them.
- ProductCreateRequest.java has no `category` field, although ProductService.java:46 reads one. The model's request carries an optional category.
- The comments of NotBeforeNowValidator.java:19-20 and :23 speak of a 100-second grace. The code allows 10 minutes, and the model follows the code (`Validation.GraceBoundary`).
- `AuctionEngine.StatusFor` reports 0 when no bid is stored, as AuctionService.java:79 does. The detail view shows the starting price instead (`Products.NoStateViewAndBroadcast`).
- A rejected bid is only logged (AuctionService.java:49-51). No error message is sent to `/user/queue/errors`, so the page's error subscriptions never receive anything from the model.
- In the axios interceptor:
  - A failed reissue does not clear the token cookies; the model, like the code, only redirects.
  - Replayed queued requests are not marked `_retry` (`AxiosRefresh.QueuedReplayUnguarded`).
  - The order of promise microtasks is not modelled: each event is one atomic step. The one ordering it fixes is that a successful reissue sends the original request before the queued ones, because queued requests are replayed from later `.then` callbacks (`AxiosRefresh.ReissueSucceeded`).
  - `console.error` output and `window.location` beyond the `/login` assignment are not modelled.
- `Decimal.ParseLong` accepts ASCII digits only. Java's `Long.parseLong` also accepts other Unicode decimal digits (through `Character.digit`). Only a stored highest bid not written by `String.valueOf` could show the difference.
- `AuthApi.Session.Logout`: `postFailed` covers a logout POST that settles. A POST answered 401, followed by a 401 answer to the reissue POST, hangs in the interceptor (see "## Findings"). Then the `finally` at authApi.ts:23-26 never runs, and neither cookie is deleted. The model does not compose the two.
- `JSON.stringify`/`JSON.parse` and `Number(...)` are covered for decimal integers only. Any other input becomes JSON null (NaN).
- Cookie attributes (path, domain, expiry) and the browser's cookie store are not modelled. `document.cookie` is the list of name/value pairs it reads as.
- React is not modelled:
  - rendering, state batching, stale closures, and effects re-running on dependency changes (other than as explicit calls);
  - the `alert` callbacks;
  - the loading and error screens.
- `fetchMyInfo` (authApi.ts:12-15) is a bare GET through the interceptor. `UserEndpoints.GetMyInfo` covers the server side; the client call adds nothing beyond the interceptor model.
- The SockJS transport, stompjs heartbeats and debug logging, and the `onStompError` logging are not modelled. The stompjs library is not part of this model; its behaviour is taken as its client documents it:
  - `UseStomp.StompHook.OnConnectionLost` and `StompContext.StompProvider.OnWebSocketClose` stand for a transport close, after which the client reconnects on its own.
  - onDisconnect runs only after the broker's receipt for a DISCONNECT.
  - Each connection numbers its subscriptions from `sub-0`.
  - publish, subscribe and unsubscribe throw a TypeError without a live connection.
- `ProductController` supplies the listing's defaults, page size 10 sorted by `id` ascending (ProductController.java:36-38); the model keeps them as `Products.DefaultPageSize` and `Products.DefaultSort`, and otherwise the controller only forwards to the modelled services.
- `Products.ProductService.GetProducts` does not sort the table itself. The answer to findAllWithSeller's ORDER BY is its input `sorted`, and any order of the table that `SortedTable` accepts is admitted, including any order among rows with equal sort values; which tie order the database picks is not modelled. The count query behind `Page.last` is taken to count the same table.
- `Products.ProductService.ListingCoversTable` and `HomePage.ShownIsPrefix` hold only when every page is cut from one answer over a table that does not change between fetches. A product saved or changed between two fetches can shift the offsets, so a page can then repeat or skip a product; that is not modelled.
- `HomePage.ShownIsPrefix`: with the home page's sort, `auctionEndTime` ascending, two products can tie. Two fetches may then order the tie differently, and offset paging repeats one product and skips the other (`Products.TiedRowsCanRepeat`). The contract therefore assumes the one answer `ds` for every page. With the default sort by `id` the answer is unique (`Products.ProductService.IdSortHasOneOrder`).
- `AuctionController`, `WebSocketConfig`, `WebConfig`, the entry point and the other wiring classes only forward to the modelled services and are not modelled.
- `AuctionClosing.AuctionScheduler.CloseAuctions` returns the closed products as a ghost value. The log lines are not modelled.

## Findings

| source | as written | input that shows it | evidently intended | confidence | as-written member | corrected member |
|---|---|---|---|---|---|---|
| frontend/src/api/axiosInstance.ts:32-47 | The reissue POST goes through the same interceptor without `_retry`. When it is answered 401 while `isRefreshing` is true, it is queued behind itself: the `await` never settles, the queue is never processed, `isRefreshing` stays true and `/login` is never reached. | Any request answered 401, followed by a 401 answer to `POST /api/v1/auth/reissue` (for example an expired refresh cookie rejected by the reissue endpoint) | The reissue request is marked `_retry` (or excluded), so its 401 takes the catch branch: the queue is rejected and the browser goes to `/login` | not executed | AxiosRefresh.ReissueUnauthorizedHangs | AxiosRefresh.GuardedReissueAlwaysEnds |
| backend/src/main/java/io/github/suho149/realtime_auction/global/handler/StompHandler.java:24-47 | `StompHeaderAccessor.wrap(message)` builds an accessor over a copy of the frame's headers. `setUser` at :39 writes only to that copy, and `return message` at :47 hands back the frame unchanged, so the handler authenticates no STOMP session; the connection's user stays the one from the WebSocket handshake | A CONNECT frame carrying `Authorization: Bearer t`, where `t` validates, and no user yet | The accessor is the frame's own (`MessageHeaderAccessor.getAccessor(message, StompHeaderAccessor.class)`), so the user set on it is the frame's user | not executed | StompAuth.StompHandler.PreSend | StompAuth.StompHandler.PreSendThroughAccessor |
