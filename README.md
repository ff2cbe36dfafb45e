# Plugspace storefront: a verified model of its front-end logic

Plugspace is a React storefront and admin shell over a REST and socket
backend. This project models in Dafny the logic inside its components'
event handlers and helpers:

- **Customer support chat.** The customer chat on the product page moves
  between "no session" and "session open". The user's chat history page
  keeps a list of sessions and the transcript of the selected one, and it
  reacts to incoming messages and read receipts. Socket emits and HTTP
  requests become an event log (`log`). Server replies become parameters.
- **Pagination.** There are three page-window algorithms: the storefront
  grid, the admin product search and the admin saved-products list. Each
  comes with its page slice, page count and Previous/Next clamps.
- **Selections.** The model covers multi-select toggles, the single
  subcategory filter, select-all, bulk save of the not-yet-saved products,
  bulk delete, and the records posted when products are saved under a
  category.
- **Validators and gates.** These are the sign-up form validator, the price
  filter, route protection, the dashboard redirect and the image-search
  quota gate.
- **Small helpers.** These are the category lists, image-URL
  normalisation, the `9918` colour marker and the login carousel.

Components whose state the source updates in place are classes whose
methods name the fields they change. Pure expressions are functions with
lemmas about them. Loops in the source (`getPaginationRange`,
`renderPageNumbers`, the receipt `forEach`, the bulk save's `forEach`) are
methods with loop invariants, proved equal to the function that specifies
them.

Shared modules:

- `Wrappers`: `Option`.
- `Text`: JavaScript white space, `trim` and `startsWith`.
- `Selection`: toggling a `Set`.
- `ImageUrls`: `getImageUrl`.
- `Paging`: page controls and the Previous/Next clamps.
- `Plans`: the signed-in user, paid plans and the image-search gate.
- `Chat`: messages, read flags and events.
- `Categories`: `useCategories`.

Functions that only compute a value, such as `SignupModal.FieldError`,
`Text.Trim` and `ProductManagement.PageNumbers`, have no row of their own.
The lemmas and methods about them, named in the table, state what they
mean.

## Model

| member | source | states |
|---|---|---|
| Chat.Contents | src/pages/ProductPage.js:147-156 | Ignoring read flags keeps the transcript's length; it is how "only flags change" is stated. |
| Chat.MarkReadByAdmin | src/pages/ProductPage.js:147-156 | The admin receipt sets `isReadByAdmin` on exactly the messages with that id. Contents and the user flags are kept, and flags only go from false to true. |
| Chat.MarkReadByUser | src/pages/UserBased/ChatHistory.js:167-181 | The user receipt sets `isReadByUser` on exactly the messages with that id. Everything else is kept. |
| Chat.MarkAllReadByAdmin | src/pages/UserBased/ChatHistory.js:96-108 | Selecting a session makes every one of its messages read by the admin side. Contents and user flags are kept. |
| Chat.ReceiptsAreTargetedAndIdempotent | src/pages/ProductPage.js:147-156 | A receipt leaves messages with other ids untouched, and applying either receipt twice equals applying it once. |
| Chat.UnreadByAdmin | src/pages/UserBased/ChatHistory.js:109-112 | The number of messages still unread by the admin side: at most the transcript length, zero exactly when every message is read, and the full length exactly when none is. |
| Chat.Receipts | src/pages/UserBased/ChatHistory.js:109-112 | One `adminReadsMessage(sessionId, id)` per unread message, all on the selected session. |
| Chat.ReceiptsConcat | src/pages/UserBased/ChatHistory.js:109-112 | Receipts follow transcript order: those of `a + b` are those of `a` followed by those of `b`. |
| Chat.ReceiptFor | src/pages/UserBased/ChatHistory.js:109-112 | Every unread message gets its receipt. A fully read transcript yields none. |
| Chat.ReceiptIff | src/pages/UserBased/ChatHistory.js:109-112 | A receipt for an id is emitted exactly when some message with that id is unread by the admin side. |
| Chat.NoReceiptsAfterMarking | src/pages/UserBased/ChatHistory.js:96-112 | After a selection has marked a session read, selecting it again emits no receipt. |
| ChatHistory.ActiveMessages | src/pages/UserBased/ChatHistory.js:95 | The transcript of the selected session, or none when no listed session has that id. |
| ChatHistory.OwnedBy | src/pages/UserBased/ChatHistory.js:66 | The loaded list holds exactly the sessions whose owner email is the user's. |
| ChatHistory.OwnedByConcat | src/pages/UserBased/ChatHistory.js:66 | The filter keeps the server's order. |
| ChatHistory.WithoutSession | src/pages/UserBased/ChatHistory.js:228 | Ending drops exactly the sessions with the selected id. |
| ChatHistory.MarkSessionRead | src/pages/UserBased/ChatHistory.js:96-108 | Only the chosen session's messages become read by the admin side. Every other session is unchanged and the ids keep their order. |
| ChatHistory.AppendToSession | src/pages/UserBased/ChatHistory.js:149-164 | An incoming message is appended to the end of its own session. Every other session is unchanged. |
| ChatHistory.MarkUserRead | src/pages/UserBased/ChatHistory.js:168-181 | A user receipt updates only the matching message of the matching session. |
| ChatHistory.LoadedAsWritten | src/pages/UserBased/ChatHistory.js:66-68 | As written, the list is filtered, but the selected session and transcript come from the unfiltered reply's first entry. |
| ChatHistory.Loaded | src/pages/UserBased/ChatHistory.js:66-68 | Corrected load: the user's sessions are listed, and the first of them, if any, is selected and shown. |
| ChatHistory.LoadedIsConsistent | src/pages/UserBased/ChatHistory.js:66-68 | The corrected load shows the selected session's transcript and lists only the user's own sessions. |
| ChatHistory.LoadedAsWrittenShowsForeignSession | src/pages/UserBased/ChatHistory.js:67-68 | When another user's session comes first, the page as written shows that session's transcript, which is not in the user's list. |
| ChatHistory.LoadedAsWrittenExample | src/pages/UserBased/ChatHistory.js:67-68 | A two-session reply where the page as written shows a stranger's message. |
| ChatHistory.Selected | src/pages/UserBased/ChatHistory.js:93-108 | Selecting shows the session's transcript as it was and keeps the list's ids. |
| ChatHistory.SelectedIsConsistent | src/pages/UserBased/ChatHistory.js:93-112 | After selecting, the screen matches the list. The session is fully read, so a second selection sends no receipt. |
| ChatHistory.Received | src/pages/UserBased/ChatHistory.js:138-165 | A message for the selected session is appended to the screen as read. For any other session the screen is unchanged. |
| ChatHistory.ReceivedIsConsistent | src/pages/UserBased/ChatHistory.js:138-165 | Receiving keeps the screen in step with the list. |
| ChatHistory.UserReadAsWritten | src/pages/UserBased/ChatHistory.js:167-188 | As written, every user receipt appends a phantom message to the screen. |
| ChatHistory.UserRead | src/pages/UserBased/ChatHistory.js:167-181 | Corrected receipt: the screen gets the same by-id update when the receipt is for the selected session, and is unchanged otherwise. |
| ChatHistory.UserReadKeepsActiveLength | src/pages/UserBased/ChatHistory.js:168-181 | A receipt neither adds nor removes messages and changes no content of the selected session. |
| ChatHistory.UserReadIsConsistent | src/pages/UserBased/ChatHistory.js:167-181 | The corrected receipt handler keeps the screen in step with the list. |
| ChatHistory.UserReadAsWrittenBreaksConsistency | src/pages/UserBased/ChatHistory.js:182-185 | As written, any receipt puts the screen out of step with the list, and the phantom message appears. |
| ChatHistory.SessionAdded | src/pages/UserBased/ChatHistory.js:190-196 | A new session is appended to the list, and the selection and screen are kept. |
| ChatHistory.SessionAddedIsConsistent | src/pages/UserBased/ChatHistory.js:190-196 | Adding a session keeps the screen in step with the list. |
| ChatHistory.NextAfterEnd | src/pages/UserBased/ChatHistory.js:229-230 | After ending, the first remaining session is selected, or none when none remains. |
| ChatHistory.Ended | src/pages/UserBased/ChatHistory.js:222-235 | After ending, the list is the old one without the ended session, with the first remaining session selected and marked read. No listed session has the ended id, and the screen matches the list. |
| ChatHistory.EndedKeepsOthers | src/pages/UserBased/ChatHistory.js:228 | Ending keeps every other session. |
| ChatHistory.CollectReceipts | src/pages/UserBased/ChatHistory.js:109-112 | The `forEach` loop emits exactly `Receipts`. |
| ChatHistory.SupportChatting.constructor | src/pages/UserBased/ChatHistory.js:9-15 | Initial state: loading, no session, an empty screen. |
| ChatHistory.SupportChatting.FetchData | src/pages/UserBased/ChatHistory.js:57-88 | With no user, nothing happens. Otherwise loading stops, a listing gives the corrected `Loaded` view and one `seen` request, and a failure is recorded. |
| ChatHistory.SupportChatting.SelectActiveSession | src/pages/UserBased/ChatHistory.js:93-124 | The new state is `Selected`. It emits one receipt per unread message, in order, then the `seen` request. |
| ChatHistory.SupportChatting.ReceiveMessage | src/pages/UserBased/ChatHistory.js:138-165 | The new state is `Received`. One receipt is emitted exactly when the message is for the selected session. |
| ChatHistory.SupportChatting.UserReadMessage | src/pages/UserBased/ChatHistory.js:167-188 | The new state is the corrected `UserRead`. Nothing is emitted. |
| ChatHistory.SupportChatting.NewSessionStarted | src/pages/UserBased/ChatHistory.js:190-196 | The new state is `SessionAdded`. |
| ChatHistory.SupportChatting.SendMessage | src/pages/UserBased/ChatHistory.js:206-218 | Exactly one message, with the trimmed text, is emitted and the input cleared when a session is selected and the text is not blank. Otherwise nothing is emitted. |
| ChatHistory.SupportChatting.HandleDelete | src/pages/UserBased/ChatHistory.js:222-235 | On 200 the new state is `Ended`, and the log holds the end request followed by the next session's receipts and `seen` request. On failure only the end request is logged and the view is unchanged. |
| ProductPage.StripMarker | src/pages/ProductPage.js:534-545 | `split('9918').join('')` removes whole markers only: the label shrinks by a multiple of four characters. |
| ProductPage.StripAroundMarker | src/pages/ProductPage.js:534-545 | Cutting at a marker strips each side separately. |
| ProductPage.HiddenIffOnlyMarkers | src/pages/ProductPage.js:534 | A colour is hidden exactly when its label is made of markers only. |
| ProductPage.StripKeepsPlainLabels | src/pages/ProductPage.js:545 | A label without the marker is shown unchanged. |
| ProductPage.QueryPrefill | src/pages/ProductPage.js:537-541 | The prefilled query starts with the product-query sentence and the stripped colour. |
| ProductPage.Started | src/pages/ProductPage.js:54-81 | With no open session, a user and a reply, the session is the id the reply carries. Otherwise there is none. |
| ProductPage.StartEvents | src/pages/ProductPage.js:54-81 | No request goes out with an open session or without a user. `newSessionCreated` follows the request exactly when a session was started, the status is 201 and the socket is up. |
| ProductPage.StartOnlyOnce | src/pages/ProductPage.js:55 | Once a session is open, a start attempt yields nothing and sends nothing. |
| ProductPage.CustomerChat.constructor | src/pages/ProductPage.js:26-33 | Initial state: no session, the chat box closed and minimised, an empty transcript. |
| ProductPage.CustomerChat.HandleStartSession | src/pages/ProductPage.js:54-81 | Returns `Started`, logs `StartEvents`, and opens and un-minimises the box for a new session. Otherwise nothing changes. |
| ProductPage.CustomerChat.SendMessage | src/pages/ProductPage.js:85-101 | Tries a start first. It then emits the trimmed text as the user's message and clears the input exactly when a session exists and the text is not blank. |
| ProductPage.CustomerChat.LoadSession | src/pages/ProductPage.js:105-128 | A session found on the server is shown open with its transcript. Otherwise nothing changes. |
| ProductPage.CustomerChat.ReceiveMessage | src/pages/ProductPage.js:144-146 | The message is appended and earlier messages are kept. |
| ProductPage.CustomerChat.AdminReadMessage | src/pages/ProductPage.js:147-156 | The transcript becomes `MarkReadByAdmin` of the old one. |
| ProductPage.CustomerChat.HandleDelete | src/pages/ProductPage.js:179-193 | On 200 the transcript and session are cleared and the box is closed and minimised. On failure nothing but the request changes. |
| ProductPage.CustomerChat.SelectColour | src/pages/ProductPage.js:534-545 | The stripped label is selected. With no open session the query text is prefilled. |
| ImageUrls.ImageUrl | src/components/HomePage/ProductGrid.js:366-375 | A `//` address gets `https:` in front. Every other address, the empty one included, is returned unchanged. |
| ImageUrls.ImageUrlIdempotent | src/pages/ProductPage.js:332-341 | The result is never protocol-relative, so normalising twice is normalising once. |
| ImageUrls.ImageUrlRecoverable | src/pages/UserBased/UserDashboard.js:80-89 | The original address can be read back from the result. |
| Paging.PageRun | src/components/HomePage/ProductGrid.js:158-164 | Buttons for `lo..hi`, ascending. |
| Paging.PrevPage | src/components/HomePage/ProductGrid.js:321 | Previous goes one page back but never below 1. |
| Paging.NextPage | src/components/HomePage/ProductGrid.js:352 | Next goes one page on but never past the last page. |
| Paging.ClampsStayInRange | src/components/AdminDashboard/SavedProducts.js:366-405 | From a page in range, Previous and Next stay in `[1, totalPages]`. |
| Paging.ClampsUndo | src/components/AdminDashboard/ProductManagement.js:636-644 | Next then Previous returns to the start page unless it was the last. Previous then Next returns unless it was the first. |
| ProductGrid.JsSlice | src/components/HomePage/ProductGrid.js:48-52 | `slice` returns the elements from the clamped start, in order, with the length `min(end, n) - min(start, n)`. |
| ProductGrid.TotalPages | src/components/HomePage/ProductGrid.js:55 | The page count is `ceil(n / 100)`. |
| ProductGrid.PageOfProducts | src/components/HomePage/ProductGrid.js:48-52 | For a page `p >= 1`: it holds `min(100, max(0, n - (p-1)*100))` products, taken in order from index `(p-1)*100`. |
| ProductGrid.EveryProductHasAPage | src/components/HomePage/ProductGrid.js:48-55 | Every product appears on page `k/100 + 1`, which is within `1..totalPages`. |
| ProductGrid.PaginationShownIff | src/components/HomePage/ProductGrid.js:313 | With `totalPages` computed from the catalogue, the controls are rendered exactly when there are more than 100 products. |
| ProductGrid.PaginationRange | src/components/HomePage/ProductGrid.js:153-181 | The controls always start with page 1. |
| ProductGrid.GetPaginationRange | src/components/HomePage/ProductGrid.js:153-181 | The loop and the pushes produce exactly `PaginationRange`. |
| ProductGrid.PaginationPages | src/components/HomePage/ProductGrid.js:158-178 | The pages shown are exactly 1, `max(2,p-2)..min(T-1,p+2)`, and `T` when `T > 1`. |
| ProductGrid.PaginationShowsCurrent | src/components/HomePage/ProductGrid.js:158-164 | The current page always has a button. |
| ProductGrid.PaginationIncreasing | src/components/HomePage/ProductGrid.js:158-178 | Page numbers appear in strictly increasing order. |
| ProductGrid.PaginationGaps | src/components/HomePage/ProductGrid.js:166-178 | A gap follows 1 exactly when `p-2 > 2`, and `..., T` ends the list exactly when `p+2 < T-1`. |
| ProductGrid.Grid.constructor | src/components/HomePage/ProductGrid.js:35-43 | Initial state: page 1, nothing selected or saved. |
| ProductGrid.Grid.ToggleProductSelection | src/components/HomePage/ProductGrid.js:243-252 | The selection becomes `Toggled` of the old one. |
| ProductGrid.Grid.Previous | src/components/HomePage/ProductGrid.js:321 | The page becomes `PrevPage` of the old one. |
| ProductGrid.Grid.Next | src/components/HomePage/ProductGrid.js:352 | The page becomes `NextPage` of the old one. |
| ProductGrid.Grid.MarkAllSaved | src/components/HomePage/ProductGrid.js:280-284 | The copied flags, with one set per id to save, are the old saved set plus those ids. |
| ProductGrid.Grid.HandleSaveMultiple | src/components/HomePage/ProductGrid.js:254-299 | No user: go home. When every selected id is already saved, post nothing and clear the selection. Otherwise post exactly the selected ids not yet saved. On success the saved set becomes the old saved set plus the whole selection, and the selection is cleared. On failure nothing changes. |
| ProductManagement.SubCategoryToggled | src/components/AdminDashboard/ProductManagement.js:49-59 | The filter holds at most one subcategory. Clicking the selected one clears it, and clicking another selects it alone. |
| ProductManagement.SubCategoryToggleTwice | src/components/AdminDashboard/ProductManagement.js:49-59 | Clicking the same subcategory twice, starting from no filter or from that subcategory alone, returns to where it started. From another subcategory it ends with no filter. |
| ProductManagement.SelectAllToggled | src/components/AdminDashboard/ProductManagement.js:560-565 | Select-all yields no selection or every listed id. It yields every id whenever the sizes differ. |
| ProductManagement.SelectAllIsToggle | src/components/AdminDashboard/ProductManagement.js:560-565 | While the selection holds only listed ids, select-all clears a complete selection and completes any other. |
| ProductManagement.WindowBounds | src/components/AdminDashboard/ProductManagement.js:245-252 | The window lies in `[1, totalPages]` and holds at most five pages. A page in range lies inside it, and the window then holds `min(totalPages, 5)` pages. |
| ProductManagement.ComputeWindow | src/components/AdminDashboard/ProductManagement.js:247-252 | The bounds computed step by step are `WindowStart` and `WindowEnd`, whose range and size `WindowBounds` states. |
| ProductManagement.RenderPageNumbers | src/components/AdminDashboard/ProductManagement.js:244-302 | The loop and pushes produce exactly `PageNumbers`. |
| ProductManagement.PageNumbersIncreasing | src/components/AdminDashboard/ProductManagement.js:255-300 | Page buttons appear in strictly increasing order. |
| ProductManagement.PageNumbersInRange | src/components/AdminDashboard/ProductManagement.js:255-300 | Every button names a page in `[1, totalPages]`, and the current page has one. |
| ProductManagement.PageNumbersGaps | src/components/AdminDashboard/ProductManagement.js:255-300 | A leading gap exactly when the window starts past 2, and a trailing gap exactly when it ends before `totalPages - 1`. |
| ProductManagement.ShownControlsReachEnds | src/components/AdminDashboard/ProductManagement.js:633-642 | Whenever the controls are shown (`totalPages > 0`), pages 1 and `totalPages` have a button, wherever the current page lies. |
| ProductManagement.Renamed | src/components/AdminDashboard/ProductManagement.js:411-440 | A search hit is renamed into the stored shape, with every field carried over. A stored product is kept. Both are tagged with the category and subcategory. |
| ProductManagement.SaveRecords | src/components/AdminDashboard/ProductManagement.js:409-440 | At most one record per listed product. |
| ProductManagement.SaveRecordsExact | src/components/AdminDashboard/ProductManagement.js:409-440 | Exactly the selected products are posted, each renamed and tagged with the chosen category and subcategory. |
| ProductManagement.SaveRecordsConcat | src/components/AdminDashboard/ProductManagement.js:409-440 | The records keep the listing's order. |
| ProductManagement.ProductSearch.constructor | src/components/AdminDashboard/ProductManagement.js:7-24 | Initial state: page 1, no selection, no filter, the dialog closed. |
| ProductManagement.ProductSearch.ToggleSubCategory | src/components/AdminDashboard/ProductManagement.js:49-59 | The filter becomes `SubCategoryToggled` of the old one, the page resets to 1, and at most one subcategory stays selected. |
| ProductManagement.ProductSearch.ToggleProductSelection | src/components/AdminDashboard/ProductManagement.js:63-73 | The selection becomes `Toggled` of the old one. |
| ProductManagement.ProductSearch.SelectAll | src/components/AdminDashboard/ProductManagement.js:560-565 | The selection becomes `SelectAllToggled` over the listed ids. |
| ProductManagement.ProductSearch.Previous | src/components/AdminDashboard/ProductManagement.js:636 | The page becomes `PrevPage` of the old one. |
| ProductManagement.ProductSearch.Next | src/components/AdminDashboard/ProductManagement.js:644 | The page becomes `NextPage` of the old one. |
| ProductManagement.AfterFinalSave | src/components/AdminDashboard/ProductManagement.js:442-458 | The request always comes first. A 200 reply clears the selection, closes the dialog, forgets its choices and the image-search flag, and confirms. The selection ends up empty exactly on a 200 or when it was already empty. Any other outcome changes only the log: a thrown error, which is how a 4xx or 5xx reply arrives, adds its alert, and a 2xx status other than 200 adds nothing. |
| ProductManagement.ProductSearch.HandleFinalSave | src/components/AdminDashboard/ProductManagement.js:406-461 | The page's save state becomes `AfterFinalSave` of the old one, with the selected products posted as `SaveRecords`. |
| ProductManagement.ProductSearch.HandleSaveClick | src/components/AdminDashboard/ProductManagement.js:377-404 | An empty selection changes nothing. Search results only open the dialog. With no filter, only the alert is added. With a subcategory filter, it alerts and changes nothing else when no category lists it or its name is empty. Otherwise the whole save state becomes `AfterFinalSave` under that category. |
| ProductManagement.ProductSearch.DialogSave | src/components/AdminDashboard/ProductManagement.js:361-366 | Without both a category and a subcategory, only the alert is added. Otherwise the whole save state becomes `AfterFinalSave` under the dialog's choices. |
| SavedProducts.PageSlot | src/components/AdminDashboard/SavedProducts.js:374-401 | A page gets a button exactly when it is 1, the last page or within one of the current page. It gets `...` exactly when it is two away and has no button. Otherwise it renders nothing. |
| SavedProducts.PageControlsUpTo | src/components/AdminDashboard/SavedProducts.js:374-401 | The controls of pages `1..n` name only pages in `1..n`. |
| SavedProducts.SlotItem | src/components/AdminDashboard/SavedProducts.js:374-401 | Each page renders its button, a `...` or nothing, as `PageSlot` decides. |
| SavedProducts.PageControlsIncreasing | src/components/AdminDashboard/SavedProducts.js:374-401 | Page buttons appear in increasing order. |
| SavedProducts.SlotsOfInterest | src/components/AdminDashboard/SavedProducts.js:377-400 | The first, last and current pages always have buttons, and a `...` never stands for the first or last page. |
| SavedProducts.RenderedControls | src/components/AdminDashboard/SavedProducts.js:362-401 | The rendered controls name only pages in `1..totalPages`. |
| SavedProducts.ButtonListed | src/components/AdminDashboard/SavedProducts.js:374-401 | Every page up to `n` whose slot is a button appears among the controls of pages `1..n`. |
| SavedProducts.ControlsShownIff | src/components/AdminDashboard/SavedProducts.js:362-401 | Controls are rendered exactly when `totalPages > 1`, and then pages 1 and `totalPages` have a button. |
| SavedProducts.SavedList.constructor | src/components/AdminDashboard/SavedProducts.js:11-16 | Initial state: `'All'` category and subcategory, page 1, nothing selected. |
| SavedProducts.SavedList.HandleCategorySelect | src/components/AdminDashboard/SavedProducts.js:75-79 | Choosing a category resets the subcategory to `'All'` and the page to 1. |
| SavedProducts.SavedList.HandleSubCategorySelect | src/components/AdminDashboard/SavedProducts.js:81-84 | Choosing a subcategory resets the page to 1. |
| SavedProducts.SavedList.SearchChanged | src/components/AdminDashboard/SavedProducts.js:324-327 | Typing a search resets the page to 1. |
| SavedProducts.SavedList.ToggleProductSelection | src/components/AdminDashboard/SavedProducts.js:121-131 | The selection becomes `Toggled` of the old one. |
| SavedProducts.SavedList.Previous | src/components/AdminDashboard/SavedProducts.js:366 | The page becomes `PrevPage` of the old one. |
| SavedProducts.SavedList.Next | src/components/AdminDashboard/SavedProducts.js:405 | The page becomes `NextPage` of the old one. |
| SavedProducts.SavedList.HandleBulkDelete | src/components/AdminDashboard/SavedProducts.js:148-155 | Nothing without confirmation. Otherwise the selection is posted for deletion, and only a 200 reply clears it and reloads. A 4xx or 5xx reply arrives as a thrown request and alerts. |
| SignupModal.EmailPatternIff | src/components/Modals/SignupModal.js:24 | The email pattern accepts exactly: no white space, one `@` with text before it, and a `.` strictly inside the part after it. |
| SignupModal.PhonePatternIff | src/components/Modals/SignupModal.js:38 | A phone number is accepted exactly when what follows an optional leading `+` is ten or more digits, spaces or hyphens. |
| SignupModal.RecordedEntries | src/components/Modals/SignupModal.js:22-47 | After checking some fields, a field has an entry exactly when it was checked and failed, and the entry is its message. |
| SignupModal.FormErrors | src/components/Modals/SignupModal.js:22-47 | The error dictionary has one entry per failing field, holding that field's message. |
| SignupModal.EmailErrors | src/components/Modals/SignupModal.js:24-27 | An empty email is "Email is required". An email of the wrong shape is "Invalid email format". |
| SignupModal.PasswordErrors | src/components/Modals/SignupModal.js:29-34 | The required and length messages for the password, and the mismatch message exactly when the two passwords differ. |
| SignupModal.OptionalFieldErrors | src/components/Modals/SignupModal.js:36-44 | The name is required. Phone and website are checked only when filled in. Validation never records a submit error. |
| SignupModal.ValidIffAcceptable | src/components/Modals/SignupModal.js:46-47 | No error is recorded exactly when the form is acceptable. |
| SignupModal.RecordField | src/components/Modals/SignupModal.js:26-44 | One field's if-chain records its message exactly when its check fails. |
| SignupModal.ValidateForm | src/components/Modals/SignupModal.js:22-48 | The dictionary built is `FormErrors`, and the result is true exactly when it is empty, which is exactly when the form is acceptable. |
| SignupModal.EmailExample | src/components/Modals/SignupModal.js:24 | `ann@shop.co` matches the email pattern. |
| SignupModal.EmailCounterExample | src/components/Modals/SignupModal.js:24 | `a@b@c.d` does not. |
| SignupModal.PhoneExamples | src/components/Modals/SignupModal.js:38 | `+1 555-0100-22` matches the phone pattern, and `555-0100` is too short. |
| SignupModal.SignupForm.constructor | src/components/Modals/SignupModal.js:18-19 | Initial state: no errors, the modal open, no sign-up call. |
| SignupModal.SignupForm.HandleSubmit | src/components/Modals/SignupModal.js:50-63 | `signup` is called exactly for acceptable forms. Otherwise the field errors are shown. A sign-up error is shown as the only error, and success closes the modal. |
| PriceFilter.AcceptedBound | src/components/HomePage/PriceFilter.js:22-25 | An accepted text has no bound exactly when it is empty, and its bound is never negative. |
| PriceFilter.ApplyOutcome | src/components/HomePage/PriceFilter.js:22-37 | Apply alerts exactly when both bounds are present and the minimum exceeds the maximum. Otherwise it passes the bounds on, with an empty box passed as no bound. |
| PriceFilter.ApplyNeverInverted | src/components/HomePage/PriceFilter.js:22-37 | From accepted boxes, the parent never receives an inverted or negative range. |
| PriceFilter.ApplyEmptyIsClear | src/components/HomePage/PriceFilter.js:22-43 | Applying with both boxes empty sends the same open range as Clear. |
| PriceFilter.PriceFilterBox.constructor | src/components/HomePage/PriceFilter.js:5-6 | Both boxes start empty. |
| PriceFilter.PriceFilterBox.MinPriceChanged | src/components/HomePage/PriceFilter.js:8-13 | A min edit is kept only when empty or a non-negative number. |
| PriceFilter.PriceFilterBox.MaxPriceChanged | src/components/HomePage/PriceFilter.js:15-20 | A max edit is kept only when empty or a non-negative number. |
| PriceFilter.PriceFilterBox.ApplyFilter | src/components/HomePage/PriceFilter.js:22-37 | Exactly one event, `ApplyOutcome`, is logged. |
| PriceFilter.PriceFilterBox.ClearFilter | src/components/HomePage/PriceFilter.js:39-43 | Both boxes are emptied and the open range is sent. |
| PriceFilter.PriceFilterBox.KeyPress | src/components/HomePage/PriceFilter.js:46-50 | Enter behaves exactly like Apply. Other keys do nothing. |
| Categories.FirstNamed | src/hooks/useCategories.js:34 | `find` by name gives the first category with that name, or none when none has it. |
| Categories.FirstContaining | src/components/AdminDashboard/ProductManagement.js:387-389 | The first category listing a subcategory, or none when none lists it. |
| Categories.MainCategories | src/hooks/useCategories.js:28-30 | `'All'` followed by the category names in order. |
| Categories.SubCategories | src/hooks/useCategories.js:32-36 | `'All'` and unknown names give no tabs. A known name gives `'All'` followed by the subcategories of the first category with that name. |
| Categories.TabsHaveSubCategories | src/hooks/useCategories.js:28-36 | Every main tab other than `'All'` opens a list that starts with `'All'`. |
| Plans.RemainingSearches | src/components/Modals/SearchByImageModal.js:115 | The remaining count plus the searches used is five. |
| Plans.ImageSearchGateOf | src/components/Modals/SearchByImageModal.js:18-28 | Corrected gate: a visitor must log in, a free user with no searches left must upgrade, and everyone else may pick. |
| Plans.GateAgreesWithDisplay | src/components/Modals/SearchByImageModal.js:22 | With the corrected gate, a free user may pick exactly when the remaining count shown is positive. |
| Plans.GateAsWrittenContradictsDisplay | src/components/Modals/SearchByImageModal.js:22 | As written, every free user with two to four searches used is told to upgrade while searches are shown as left. |
| Plans.GateAsWrittenExample | src/components/Modals/SearchByImageModal.js:22 | Two searches used: an upgrade is demanded while three are shown as left. |
| Plans.ImageSearchGateAsWritten | src/components/Modals/SearchByImageModal.js:18-28 | The gate as written: a visitor must log in, and a free user with two or more searches used must upgrade. |
| Plans.GatesDiffer | src/components/Modals/SearchByImageModal.js:22 | The written and corrected gates disagree exactly for free users with two to four searches used. |
| SearchByImageModal.ErrorText | src/components/Modals/SearchByImageModal.js:51-52 | The server's message when it is non-empty, otherwise the fallback text. Never empty. |
| SearchByImageModal.WithDetails | src/components/Modals/SearchByImageModal.js:46-48 | Merging the reply's details changes only the search count. |
| SearchByImageModal.RemainingShown | src/components/Modals/SearchByImageModal.js:108-116 | The count is shown to free users only, as five minus the searches used. |
| SearchByImageModal.PickerOpensIffSearchesLeft | src/components/Modals/SearchByImageModal.js:22-115 | Whenever the count is shown, the picker opens exactly when it is positive. |
| SearchByImageModal.SearchByImage.constructor | src/components/Modals/SearchByImageModal.js:8-9 | No error, not loading. |
| SearchByImageModal.SearchByImage.ImageSearchClick | src/components/Modals/SearchByImageModal.js:18-28 | By the corrected gate (the code's limit of two is `Plans.ImageSearchGateAsWritten`): a visitor closes the modal and is asked to log in, a free user with no searches left sees "Please upgrade your plan!", and everyone else gets the picker. |
| SearchByImageModal.SearchByImage.HandleImageChange | src/components/Modals/SearchByImageModal.js:31-58 | Nothing without a file or a user. Otherwise the upload is made. Success merges the details if present, hands over the products and closes. Failure shows the error text. The file input is emptied either way. |
| HomePage.ProductPath | src/pages/HomePage.js:41 | The route is `/product/` followed by the id. |
| HomePage.ProductPathInjective | src/pages/HomePage.js:41 | Different products lead to different routes. |
| HomePage.Home.constructor | src/pages/HomePage.js:23-34 | `'All'` categories, empty search, open price range, every modal closed. |
| HomePage.Home.HandleProductClick | src/pages/HomePage.js:37-43 | A visitor gets the login modal and no navigation. A user goes to the product's route. |
| HomePage.Home.HandleImageSearchClick | src/pages/HomePage.js:45-53 | Login, subscription or image-search modal, by the corrected gate. |
| HomePage.Home.HandleCategorySelect | src/pages/HomePage.js:68-71 | The category is set and the subcategory reset to `'All'`. |
| HomePage.Home.HandleSubCategorySelect | src/pages/HomePage.js:250 | The subcategory is set. |
| HomePage.Home.HandleSearchChange | src/pages/HomePage.js:83-85 | The search text is set. |
| HomePage.Home.HandleSearch | src/pages/HomePage.js:87-91 | Enter copies the term to the grid's term at once. Other keys do nothing. |
| HomePage.Home.HandlePriceChange | src/pages/HomePage.js:55-57 | The price range is the one sent. |
| HomePage.PaidUsersMaySearch | src/pages/HomePage.js:45-53 | A user on a paid plan always gets the image-search modal. |
| UserDashboard.DashboardAccess | src/pages/UserBased/UserDashboard.js:37-47 | A visitor goes to `/login` and a user without a paid plan to `/`. Data is fetched exactly for paid plans. |
| UserDashboard.DashboardUsersMaySearch | src/pages/UserBased/UserDashboard.js:42 | Whoever the dashboard loads data for passes the image-search gate. |
| UserDashboard.Without | src/pages/UserBased/UserDashboard.js:72-74 | Exactly the products with the given id are removed. |
| UserDashboard.WithoutConcat | src/pages/UserBased/UserDashboard.js:72-74 | The remaining products keep their order. |
| UserDashboard.WithoutOne | src/pages/UserBased/UserDashboard.js:72-74 | A single product is dropped exactly when it has the id. |
| UserDashboard.WithoutIdempotent | src/pages/UserBased/UserDashboard.js:72-74 | Removing twice is removing once. |
| UserDashboard.WithoutAbsent | src/pages/UserBased/UserDashboard.js:72-74 | Nothing is removed when no product has the id. |
| UserDashboard.Dashboard.constructor | src/pages/UserBased/UserDashboard.js:10-12 | No key, no products, loading. |
| UserDashboard.Dashboard.FetchDashboardData | src/pages/UserBased/UserDashboard.js:16-35 | Nothing without a user. Otherwise both requests are made, what arrives is kept, and loading stops. |
| UserDashboard.Dashboard.Effect | src/pages/UserBased/UserDashboard.js:37-47 | It redirects as `DashboardAccess` says, changing nothing else, and fetches only for paid plans. |
| UserDashboard.Dashboard.RemoveSavedProduct | src/pages/UserBased/UserDashboard.js:69-78 | The delete is requested, and only a successful reply drops the products with that id. A failure leaves the list unchanged. |
| LoginModal.JsRem | src/components/Modals/LoginModal.js:32-36 | JavaScript's `%` agrees with the mathematical remainder for a non-negative dividend. |
| LoginModal.NextSlide | src/components/Modals/LoginModal.js:31-33 | The next index stays in `[0, n)` and wraps from the last slide to the first. |
| LoginModal.PrevSlide | src/components/Modals/LoginModal.js:35-37 | The previous index stays in `[0, n)` and wraps from the first slide to the last. |
| LoginModal.SlidesRoundTrip | src/components/Modals/LoginModal.js:31-37 | Previous after Next, and Next after Previous, return to the start. |
| LoginModal.ForgotPassword | src/components/Modals/LoginModal.js:66-84 | An empty email shows "Please enter your email first" and makes no request. Otherwise a request is made, and the banner is an error exactly when it failed. Success and a 429 show the server's message. Any other failure shows the server's message when it is non-empty, otherwise "Failed to send reset link", so its banner is never empty. |
| ProtectedRoute.Decide | src/components/ProtectedRoute.js:5-16 | The children render exactly for a user who is the admin, or any user when the route is not admin-only. Everyone else is redirected to `/`. |
| ProtectedRoute.AdminOnlyIsStricter | src/components/ProtectedRoute.js:12-16 | Whoever passes an admin-only route passes a plain protected route. |
| Selection.Toggled | src/components/AdminDashboard/SavedProducts.js:121-131 | Toggling flips exactly one id's membership and changes the size by one. |
| Selection.ToggleTwice | src/components/HomePage/ProductGrid.js:243-252 | Toggling the same id twice restores the selection. |
| Selection.ToggleCommutes | src/components/AdminDashboard/ProductManagement.js:63-73 | Toggles of two ids commute. |
| Text.TrimCutsOnlySpace | src/pages/UserBased/ChatHistory.js:210 | `trim` removes only white space at either end. The result neither starts nor ends with it. |
| Text.TrimEmptyIff | src/pages/UserBased/ChatHistory.js:215 | The trimmed text is empty exactly when the text is all white space. |

## Left out

- Socket connections, `attachSession`, reconnects and the `useEffect` re-runs. Emits are an event log. Server replies, `window.confirm` and the chosen file are method parameters.
- HTTP and Firebase calls themselves, the Stripe checkout, and the fetches in `useCategories` and the pages. Their results are parameters.
- Timers: the `handleQuery` delay and retry loop on the product page, the search debounce on the home page, and toast timeouts. `HomePage.Home.HandleSearchChange` therefore does not update the grid's term.
- The chat box's minimise toggle and the product page's `handleQuery`. They are layout and I/O only.
- Floating-point price scaling and `toFixed` display. In `PriceFilter`, `isNaN` and `parseFloat` are one abstract function `Parse` from text to an optional real.
- `lodash.shuffle` ordering, JSX rendering, animations, scrolling and date formatting.
- The regenerate-API-key and copy-to-clipboard actions of the dashboard. They are requests and clipboard I/O with no logic.
- The order of a JavaScript `Set`. Selections are Dafny sets, so the order in which bulk save and bulk delete list the ids is not modelled.
- The modal's `loading` flag in `SignupModal`. Closing the modal is one boolean.
- SignupModal.PasswordErrors: length counts characters, not UTF-16 code units, so text outside the Basic Multilingual Plane can differ.
- ChatHistory.SupportChatting.SendMessage: session ids are assumed non-empty. JavaScript treats an empty id as missing, and the model treats any present id as a session.
- ProductManagement.Renamed: a search hit is assumed to carry a non-empty `num_iid`. The renaming test is `num_iid`'s truthiness, and the model splits the two shapes as constructors.
- ProductManagement.Renamed: the price is carried over as it is. `price.toFixed(2)` formats a number as text with two decimals, and the model keeps prices as text, so the formatting is not modelled.
- ProductGrid.PaginationPages: stated for `currentPage >= 1`, the only pages the grid's state reaches.
- ProductManagement.SelectAllToggled: the source compares sizes, not contents. It behaves as a toggle only while the selection holds listed ids, which `SelectAllIsToggle` proves. A stale selection of the same size is cleared, as written.
- ProductPage.StripMarker: `split('9918').join('')` can leave a marker behind (`99918918` becomes `9918`), so stripping is not idempotent. The model follows the code and does not claim idempotence.
- ProductPage.CustomerChat.SendMessage: as written, a session is started before the text is checked, so a blank message can still open a session. The model keeps that order.
- ChatHistory is the user's own history page. It filters by the signed-in user's email and sends as `user`, and the model follows the code.

## Findings

| source | as written | input that shows it | evidently intended | confidence | as-written member | corrected member |
|---|---|---|---|---|---|---|
| src/pages/UserBased/ChatHistory.js:182-185 | The read-receipt handler appends `{...data, isReadByUser: true}` to the transcript on screen. `data` is the router import, not a message. | Any `userReadMessage` event while a session is shown | Apply the same by-id read update to the transcript on screen when the receipt is for the selected session | not executed | ChatHistory.UserReadAsWrittenBreaksConsistency | ChatHistory.UserReadIsConsistent |
| src/pages/UserBased/ChatHistory.js:67-68 | The selected session and transcript are taken from the unfiltered reply's first entry. | A reply whose first session belongs to another user (`LoadedAsWrittenExample`) | Select the first of the user's own sessions | not executed | ChatHistory.LoadedAsWrittenShowsForeignSession | ChatHistory.LoadedIsConsistent |
| src/components/Modals/SearchByImageModal.js:22 | The quota gate blocks free users from two searches on, while line 115 shows `5 - count` left (also src/pages/HomePage.js:48). | A free user with `searchByImageCount` of 2, 3 or 4: searches shown as left, upgrade demanded (`GateAsWrittenExample` has 2) | One limit of five for the gate and the display | not executed | Plans.GateAsWrittenContradictsDisplay | Plans.GateAgreesWithDisplay |
