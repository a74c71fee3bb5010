# grandnode2 admin: schedule tasks, review moderation, email accounts

This project models three pieces of the grandnode2 administration area:

- **The schedule-task controller.** It shows a task with its run times in the user's time zone. It saves the edit form. Its manual "run now" trigger runs the task's registered implementation and records the run's start, success and failure times. The trigger then writes the task back once.
- **The product-review view-model service.** It builds the review model and the list page's store filter. It prepares one page of search results, with the creation window widened by one day. It approves or disapproves a batch of selected reviews whose ids have the form `review:product`. Each affected review sends a product-totals command. Approving a review that was not yet approved also publishes a "review approved" event.
- **The email-account view-model service.** A new account form starts on port 25. An insert stores the form's password as given. An update replaces the stored password only with a non-empty one.

State that the source changes in place is modelled as classes:

- `ScheduleTaskController` holds the task store, the log of `UpdateTask` writes and the queue of notifications.
- `ProductReviewViewModelService` holds the review table and the log of mediator commands and events.
- `EmailAccountViewModelService` holds the log of account writes.

Two details of the manual trigger follow the code closely. A successful run clears the last failure time (ScheduleTaskController.cs:161), so the failure time does not survive until the next failure. A failed run also shows the "Done" notice, before the error (lines 162 and 167).

`RunNow`, the batch moderation methods and the account insert and update tie their new state or result to a pure function: `RecordRun`, `Moderate`/`ModerateOne`, `NewAccount` or `UpdatedAccount`. Lemmas then prove what the source promises about those functions. The other methods (`UpdateTask`, `EditScheduler`, `PersistReview`, `UpdateProductReview` and `DeleteProductReview`) state their new table and log directly in their ensures.

The following collaborators are function-valued constants of the classes or parameters of the functions, with nothing assumed about them:

- the object mapper;
- the translation lookup;
- the time-zone conversions;
- the review text formatter;
- the review search and its paging.

Two exceptions take hypotheses. `KeepsPassword` says the mapper leaves the entity's password alone. `CopiesPort` says the mapper copies the form's port. Dates are .NET `DateTime` tick counts bounded by `DateTime.MaxValue`. The one date computation that can overflow, `AddDays(1)` on the search window's end, is modelled with its `ArgumentOutOfRange` fault. Dereferencing a missing entity is modelled as a `NullReference` fault.

Files:

- `common.dfy`: options, results, faults, ticks, .NET string predicates, stores.
- `schedule_tasks.dfy`: the schedule-task controller.
- `product_reviews.dfy`: the review view-model service.
- `email_accounts.dfy`: the email-account view-model service.

## Model

| member | source | states |
|---|---|---|
| Common.AddOneDay | src/Web/Grand.Web.Admin/Services/ProductReviewViewModelService.cs:114 | adding one day succeeds exactly when the result stays within DateTime.MaxValue, and then adds one day of ticks; otherwise it faults with ArgumentOutOfRange |
| Common.StoreItems | src/Web/Grand.Web.Admin/Controllers/ScheduleTaskController.cs:71-72 | one select-list entry per store, in store order, showing the shortcut with the id as value |
| ScheduleTasks.RecordRun | src/Web/Grand.Web.Admin/Controllers/ScheduleTaskController.cs:156-166 | a run records its start; success records its end as the last success and clears the failure time; a failed run records its end as the failure time and keeps the last success; the task's settings are untouched |
| ScheduleTasks.RunNotices | src/Web/Grand.Web.Admin/Controllers/ScheduleTaskController.cs:162-169 | a run always shows the "Done" notice first; exactly a failed run adds the error naming the task and the exception message |
| ScheduleTasks.RecordRunsHistory | src/Web/Grand.Web.Admin/Controllers/ScheduleTaskController.cs:156-166 | after any series of runs the settings are unchanged; the last success is the end of the latest completed run, or the earlier value when none completed; the start is the latest run's; a failure time is present exactly when the latest run failed, and then it is that run's end |
| ScheduleTasks.PrepareScheduleTaskModel | src/Web/Grand.Web.Admin/Controllers/ScheduleTaskController.cs:56-64 | the model is the mapper's copy of the task with the three run times in user time; each is present exactly when the task's is; the end time shown is the last failure time |
| ScheduleTasks.PrepareStores | src/Web/Grand.Web.Admin/Controllers/ScheduleTaskController.cs:67-75 | the drop-down keeps its entries, then gets a "Select" entry with an empty value, then one entry per store in order; nothing else in the model changes |
| ScheduleTasks.ScheduleTaskController.UpdateTask | src/Web/Grand.Web.Admin/Controllers/ScheduleTaskController.cs:172 | the write is logged and replaces the stored record with the same id |
| ScheduleTasks.ScheduleTaskController.RunNow | src/Web/Grand.Web.Admin/Controllers/ScheduleTaskController.cs:145-185 | an unknown id reports "cannot be loaded" and an unregistered type reports "has not been registered", both writing nothing; otherwise the record gets RecordRun's bookkeeping, is written exactly once and the RunNotices are shown; the result is always the redirect to the list |
| ScheduleTasks.ScheduleTaskController.EditSchedulerPage | src/Web/Grand.Web.Admin/Controllers/ScheduleTaskController.cs:107-118 | an unknown id faults; otherwise the page shows the prepared model of the stored task with the store drop-down |
| ScheduleTasks.ScheduleTaskController.EditScheduler | src/Web/Grand.Web.Admin/Controllers/ScheduleTaskController.cs:124-142 | a valid form is mapped onto the stored task, written exactly once and acknowledged, then the list or the edit page follows; an invalid form writes nothing and is shown again with the stored name and type, the store drop-down and the validation errors, and it faults when the id is unknown |
| ProductReviews.FirstSegment | src/Web/Grand.Web.Admin/Services/ProductReviewViewModelService.cs:157 | the review part is a prefix of the id without a ':' and stops at the first ':' |
| ProductReviews.LastSegment | src/Web/Grand.Web.Admin/Services/ProductReviewViewModelService.cs:158 | the product part is the end of the id, contains no ':' and starts right after the last ':' |
| ProductReviews.SegmentsWithoutSeparator | src/Web/Grand.Web.Admin/Services/ProductReviewViewModelService.cs:157-158 | an id without ':' is both its own review id and its own product id |
| ProductReviews.SegmentsOfComposedId | src/Web/Grand.Web.Admin/Services/ProductReviewViewModelService.cs:157-158 | splitting "review:product" gives back the review id and the product id |
| ProductReviews.Moderate | src/Web/Grand.Web.Admin/Services/ProductReviewViewModelService.cs:153-194 | a batch keeps the table's keys, changes each review at most in its approval flag and only appends to the mediator log |
| ProductReviews.ModerateOneLog | src/Web/Grand.Web.Admin/Services/ProductReviewViewModelService.cs:161-173 | one id adds a totals command for its product exactly when its review exists and is in scope, and an approved event exactly when, in addition, it is being approved and was not approved |
| ProductReviews.ModerateReview | src/Web/Grand.Web.Admin/Services/ProductReviewViewModelService.cs:155-164 | after a batch, a review has the new flag exactly when it is selected and in scope; every other review is as it was |
| ProductReviews.ModerateCommands | src/Web/Grand.Web.Admin/Services/ProductReviewViewModelService.cs:153-194 | a batch sends exactly one totals command per selected id whose review exists and is in scope, in selection order, for that id's product |
| ProductReviews.DisapproveNoEvents | src/Web/Grand.Web.Admin/Services/ProductReviewViewModelService.cs:177-194 | disapproving publishes no approved event |
| ProductReviews.ApproveEventsSound | src/Web/Grand.Web.Admin/Services/ProductReviewViewModelService.cs:161-172 | every approved event carries a selected, in-scope review that was not approved before, now approved |
| ProductReviews.ApproveEventsUnique | src/Web/Grand.Web.Admin/Services/ProductReviewViewModelService.cs:163-172 | no review gets two approved events from one batch, even when selected twice |
| ProductReviews.ApproveEventsComplete | src/Web/Grand.Web.Admin/Services/ProductReviewViewModelService.cs:161-172 | every selected, in-scope review that was not approved gets its approved event |
| ProductReviews.ApproveWhenApproved | src/Web/Grand.Web.Admin/Services/ProductReviewViewModelService.cs:163-172 | when every selected review in scope is already approved, a batch changes no review and publishes no approved event |
| ProductReviews.ApproveTwice | src/Web/Grand.Web.Admin/Services/ProductReviewViewModelService.cs:153-175 | approving the same selection again changes no review and publishes no approved event |
| ProductReviews.FindStore | src/Web/Grand.Web.Admin/Services/ProductReviewViewModelService.cs:59 | the store found has the requested id; none is found only when no store has it |
| ProductReviews.PrepareProductReviewModel | src/Web/Grand.Web.Admin/Services/ProductReviewViewModelService.cs:51-89 | it faults exactly when the product is missing. Otherwise it sets the identity, product name, rating, signature and user-time date. The store name is the store's shortcut or "". The customer column is the email, the guest label or "". Title, texts and approval are copied (texts formatted on request) unless excluded, and then keep the model's values |
| ProductReviews.StoresFor | src/Web/Grand.Web.Admin/Services/ProductReviewViewModelService.cs:97-99 | the offered stores are an order-preserving selection of the stores: every offered store has the requested id, every store with it is offered, and all stores are offered when the id is null or white space |
| ProductReviews.StoresForCounts | src/Web/Grand.Web.Admin/Services/ProductReviewViewModelService.cs:97-99 | each store with the requested id (any store, when the id is null or white space) is offered exactly as often as it occurs, and no other store is offered |
| ProductReviews.PrepareProductReviewListModel | src/Web/Grand.Web.Admin/Services/ProductReviewViewModelService.cs:91-103 | the filter starts with an "All" entry with an empty value, followed by the offered stores' entries |
| ProductReviews.SearchWindow | src/Web/Grand.Web.Admin/Services/ProductReviewViewModelService.cs:108-114 | each bound is present exactly when its date is; "from" is converted to UTC; "to" is converted and moved one day on; it faults exactly when that passes DateTime.MaxValue |
| ProductReviews.ProductReviewViewModelService.PersistReview | src/Web/Grand.Web.Admin/Services/ProductReviewViewModelService.cs:165 | the write replaces the stored review with the same id and sends nothing |
| ProductReviews.ProductReviewViewModelService.UpdateProductReview | src/Web/Grand.Web.Admin/Services/ProductReviewViewModelService.cs:130-142 | the mapped review is written and returned, and one totals command is sent for its product |
| ProductReviews.ProductReviewViewModelService.DeleteProductReview | src/Web/Grand.Web.Admin/Services/ProductReviewViewModelService.cs:144-151 | the review is removed, every other review is kept, and one totals command is sent for its product |
| ProductReviews.ProductReviewViewModelService.ApproveSelected | src/Web/Grand.Web.Admin/Services/ProductReviewViewModelService.cs:153-175 | the new table and log are those of Moderate with approval, so the lemmas above hold of them; every review stays under its own id |
| ProductReviews.ProductReviewViewModelService.ApproveOne | src/Web/Grand.Web.Admin/Services/ProductReviewViewModelService.cs:157-173 | one pass of the approval loop has exactly the effect of ModerateOne |
| ProductReviews.ProductReviewViewModelService.DisapproveSelected | src/Web/Grand.Web.Admin/Services/ProductReviewViewModelService.cs:177-194 | the new table and log are those of Moderate with disapproval |
| ProductReviews.ProductReviewViewModelService.DisapproveOne | src/Web/Grand.Web.Admin/Services/ProductReviewViewModelService.cs:181-192 | one pass of the disapproval loop has exactly the effect of ModerateOne |
| ProductReviews.ProductReviewViewModelService.PrepareProductReviewsModel | src/Web/Grand.Web.Admin/Services/ProductReviewViewModelService.cs:105-128 | a window past DateTime.MaxValue faults; otherwise the search runs over SearchWindow and the list filters. The page faults exactly when one of its reviews has no product. Otherwise there is one prepared model per page review, in order, and the total is the size of the whole result |
| EmailAccounts.PrepareEmailAccountModel | src/Web/Grand.Web.Admin/Services/EmailAccountViewModelService.cs:23-30 | a new form has port 25 and every other value at its default, with no password |
| EmailAccounts.NewAccount | src/Web/Grand.Web.Admin/Services/EmailAccountViewModelService.cs:34-36 | the inserted entity is the mapper's, except that its password is the form's, whatever it is |
| EmailAccounts.UpdatedAccount | src/Web/Grand.Web.Admin/Services/EmailAccountViewModelService.cs:43-45 | the updated entity is the mapper's result, except that a non-null, non-empty form password replaces its password |
| EmailAccounts.DefaultFormAccount | src/Web/Grand.Web.Admin/Services/EmailAccountViewModelService.cs:25-36 | saving the untouched new form stores an account on port 25 with no password, for a mapper that copies the port |
| EmailAccounts.UpdatePasswordRule | src/Web/Grand.Web.Admin/Services/EmailAccountViewModelService.cs:43-45 | with a mapper that ignores the password, a null or empty form password keeps the stored one, and any other replaces it; the stored password survives exactly when the form's is null, empty or equal to it |
| EmailAccounts.UpdateKeepsPasswordTwice | src/Web/Grand.Web.Admin/Services/EmailAccountViewModelService.cs:43-45 | saving a form without a password twice still keeps the stored password |
| EmailAccounts.EmailAccountViewModelService.InsertEmailAccountModel | src/Web/Grand.Web.Admin/Services/EmailAccountViewModelService.cs:32-39 | the entity returned is NewAccount's, with the form's password, and it is inserted exactly once |
| EmailAccounts.EmailAccountViewModelService.UpdateEmailAccountModel | src/Web/Grand.Web.Admin/Services/EmailAccountViewModelService.cs:41-49 | the entity returned is UpdatedAccount's and it is updated exactly once. A non-empty form password is stored. With a mapper that ignores the password, a null or empty one keeps the stored password |

## Left out

- The background scheduler is not part of this model: its loop, the lease between instances and `StopOnError`. The controller only triggers a single run.
- RunNow: `DateTime.UtcNow` and the task's `Execute()` become parameters: the start and end times and whether the run threw. The exception message is kept as a string.
- The schedule-task `Index` and `List` actions are not modelled. They are a redirect, and a grid over `PrepareScheduleTaskModel` of every task.
- The object mapper (AutoMapper profiles) is not part of this model. Its task, review and account mappings are uninterpreted functions.
- UpdateEmailAccountModel: the promise that an empty form password keeps the stored one depends on the mapping profile ignoring the password. That profile is not part of this model, so the property is proved under the `KeepsPassword` hypothesis.
- PrepareEmailAccountModel: the account and model records carry the connection fields the forms show; other fields are left out.
- `SendTestEmail` is not modelled: it is network I/O through the email sender.
- Time zones, translations, `FormatText.ConvertText`, the review search and `PagedForCommand` are uninterpreted functions.
- Permission attributes, `async`/`await`, and ModelState validation are not modelled. The validity of the form is a boolean parameter.
- Exceptions thrown by persistence or by the mediator are not modelled.
- The `ArgumentNullException` guards at ProductReviewViewModelService.cs:54-55 cannot fire, because model values are never null.
- Entities are values, so aliasing is not modelled. In the source, the method updates the review object it loaded and the repository stores that object. In the model, the new value is written back by id.
- PrepareProductReviewModel: when the product is missing, the model returns the fault. The source has already assigned the id, store name and product id to the caller's model at that point. Those partial writes are not modelled.
- Strings that may be null are "" where the code only tests `IsNullOrEmpty`/`IsNullOrWhiteSpace`. Passwords and the optional dates keep the difference between null and empty.
- The mediator is a log of what was sent. The handlers of the totals command and of the approved event are not part of this model.
