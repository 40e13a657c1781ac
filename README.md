# Leasely core rules in Dafny

Leasely is a property-management web and mobile app: landlords keep leases,
tasks, a finance ledger and statistics, and tenants raise peer complaints and
ask a property concierge. Most of it reads and writes a hosted database. This
project models the rules that sit between those reads and writes, one Dafny
module per component:

- `LeaseAI`: the early-termination calculator (remaining months, six-month
  lock-in, three-way penalty policy, drafted notice) and the 90-day renewal
  scan with its sort by days left.
- `Community`: the peer-complaint lifecycle (open / escalated / resolved)
  with its button gating, the append-only message log, complaint creation
  with its seed message, and the neighbour list.
- `Tasks`: status toggling with its completion stamp, creation defaults,
  deletion, the status filter, the counters, the progress bar, the overdue
  badge and the priority colours.
- `Finances`: the category lists, the type filter, the income / expense /
  net figures overall and for the current month, and the submit guard.
- `Statistics`: per-property occupancy and revenue with running totals, the
  rounded occupancy rate, the monthly income / expense buckets and the chart
  scale.
- `Concierge`: the keyword scorer, the first-strictly-best answer with its
  threshold, and the chat transcript.
- `OnboardingCarousel`, `EmailVerification`, `MobileAppShell`,
  `LoadingDemo`, `LoadingScreen`, `Sidebar`, `PropertyPicker`,
  `LandlordLayout`, `SetupProfile`: the mobile and layout state machines
  and validators.
- Helper modules: `Text` (the JavaScript string operations the pages use),
  `Calendar` (civil dates), `Sequences` (subsequences) and `Wrappers`
  (`Option`).

Component state that the source updates in place is a Dafny `class`. Its
methods are the event handlers, and each states the whole new state.
Pure expressions are functions, and the properties are lemmas about them.
Some inputs are parameters rather than modelled behaviour:
- the signed-in user;
- the outcome of each database write;
- the user's answer to a confirmation dialog;
- "now" and "today".

A handler whose button is not on screen in the current state does nothing.

A September move-out from a lease that ends in December leaves 3 remaining
months. Outside the lock-in, 3 is not more than 3, so no fee is charged
(`LeaseAI.SeptemberMoveOutScenario`).

## Model

| member | source | states |
|---|---|---|
| LeaseAI.RemainingMonths | src/app/landlord/lease-ai/page.tsx:91 | never negative; 0 exactly when the lease ends in or before the move-out month, otherwise move-out month plus the result is the end month (day of month ignored) |
| LeaseAI.WithinLockIn | src/app/landlord/lease-ai/page.tsx:92-93 | holds exactly when the move-out falls before the lease start plus six months: an earlier month, or the same month with an earlier day |
| LeaseAI.Assess | src/app/landlord/lease-ai/page.tsx:94-96 | first rule wins: within lock-in charges 2 months, else more than 3 remaining months charges 1, else none; the type is `none` exactly when the value is 0 |
| LeaseAI.Evaluate | src/app/landlord/lease-ai/page.tsx:91-96 | the penalty is rent times the months charged, so it is 0, one rent or two rents |
| LeaseAI.Terminate | src/app/landlord/lease-ai/page.tsx:97-106 | the stored result carries the lease and move-out date it was asked about, the evaluated figures, the recommendation for that name (`Tenant` as fallback), lock-in, remaining months and penalty, the subject `Re: Early Move-Out Request - <name>`, and the notice for that penalty |
| LeaseAI.PenaltyRules | src/app/landlord/lease-ai/page.tsx:92-96 | for every lease and date: lock-in is exactly "before start + 6 months" and the three rules give 2·rent, rent and 0 with their types |
| LeaseAI.PenaltyBounds | src/app/landlord/lease-ai/page.tsx:94-96 | with a non-negative rent the penalty lies between 0 and two months' rent |
| LeaseAI.FeeParagraphLead | src/app/landlord/lease-ai/page.tsx:105 | the fee paragraph opens with "A termination fee of " exactly when the penalty is positive and with "No penalty applies" exactly when it is not |
| LeaseAI.NoticeStatesFee | src/app/landlord/lease-ai/page.tsx:104-105 | in the drafted body, the paragraph after the greeting announces a fee exactly when the penalty is positive |
| LeaseAI.SeptemberMoveOutScenario | src/app/landlord/lease-ai/page.tsx:91-96 | a September move-out from a lease ending in December leaves 3 months and, outside lock-in, no penalty |
| LeaseAI.LeaseScenarios | src/app/landlord/lease-ai/page.tsx:91-96 | on a January–December lease: March is in lock-in at two rents, June 30 is in and July 1 is out of lock-in, August leaves 4 months at one rent, November costs nothing |
| LeaseAI.WindowAlertsMembers | src/app/landlord/lease-ai/page.tsx:57-60 | an alert is pushed exactly for each lease whose end is 1 to 90 days away, carrying that day count |
| LeaseAI.InsertByDaysPermutes | src/app/landlord/lease-ai/page.tsx:69 | inserting an alert adds exactly that alert |
| LeaseAI.InsertByDaysSorted | src/app/landlord/lease-ai/page.tsx:69 | inserting into a list sorted by days left keeps it sorted |
| LeaseAI.SortByDaysCorrect | src/app/landlord/lease-ai/page.tsx:69 | the sorted alerts are a permutation of the pushed alerts, ascending by days left |
| LeaseAI.CheckRenewals | src/app/landlord/lease-ai/page.tsx:55-69 | the loop pushes the in-window alerts in lease order; the result is them sorted ascending by days left, same multiset |
| LeaseAI.FindLease | src/app/landlord/lease-ai/page.tsx:89 | `find`: none exactly when no lease has the id, otherwise the first lease with that id |
| LeaseAI.LeaseAIPage.constructor | src/app/landlord/lease-ai/page.tsx:46-50 | the selection, date, reason and result start empty |
| LeaseAI.LeaseAIPage.Calculate | src/app/landlord/lease-ai/page.tsx:85-108 | does nothing without a selected lease and a move-out date; otherwise stores `Terminate` of the selected lease; inputs are left as they were |
| LeaseAI.LeaseAIPage.Reset | src/app/landlord/lease-ai/page.tsx:111 | clears selection, date, reason and result together |
| Community.StepEdges | src/app/tenant/community/page.tsx:255-295 | a click either changes nothing or takes one of open→escalated, open→resolved, escalated→resolved |
| Community.RunNeverGoesBack | src/app/tenant/community/page.tsx:255-295 | while the complaint stays selected, the status only moves forward in open < escalated < resolved over any series of clicks |
| Community.NeverReopens | src/app/tenant/community/page.tsx:236-295 | while the complaint stays selected, no series of clicks leads from escalated or resolved back to open |
| Community.ResolvedIsFinal | src/app/tenant/community/page.tsx:467-472 | while the complaint stays selected, no click changes it once resolved |
| Community.Transitions | src/app/tenant/community/page.tsx:255-295 | escalation happens only from open; open→resolved and escalated→resolved both happen; escalating a resolved complaint does nothing |
| Community.Thread | src/app/tenant/community/page.tsx:158-166 | the loaded thread holds exactly the logged messages of that complaint and is no longer than the log |
| Community.ThreadKeepsOrder | src/app/tenant/community/page.tsx:158-166 | the thread is a subsequence of the log: oldest first, as `created_at` ascending orders it |
| Community.ThreadCounts | src/app/tenant/community/page.tsx:158-166 | each message of the complaint occurs in the thread as often as in the log, and no other message occurs |
| Community.ThreadAppend | src/app/tenant/community/page.tsx:179-181 | logging a message extends its own complaint's thread by it and leaves every other thread unchanged |
| Community.WithStatus | src/app/tenant/community/page.tsx:259-265 | only the row with the id gets the new status (and the escalation time when given); all others are unchanged |
| Community.FormatNeighbors | src/app/tenant/community/page.tsx:145-150 | one card per row with a tenant id, in row order: the card at i has that row's unit number, its tenant id, its name or "Unknown", and its avatar; rows without an id are dropped, and none is when every row has one |
| Community.CommunityPage.constructor | src/app/tenant/community/page.tsx:49-64 | the list shows the store's complaints; no open complaint, empty thread and message box, blank form with category "Noise", form closed |
| Community.CommunityPage.OpenForm | src/app/tenant/community/page.tsx:355 | opens the form and changes nothing else |
| Community.CommunityPage.SelectComplaint | src/app/tenant/community/page.tsx:74-79 | the selected complaint becomes active and its thread is loaded |
| Community.CommunityPage.CreateComplaint | src/app/tenant/community/page.tsx:216-253 | no-op without an open form, user, unit, description, unit lookup or inserted row; otherwise stores an `open` complaint as the most recently updated row, refetches the list so it shows first, logs exactly one seed message when that write succeeds, closes and resets the form |
| Community.CommunityPage.Post | src/app/tenant/community/page.tsx:179-181 | appends the message to the log, clears the box, reloads the open thread, and changes nothing else |
| Community.CommunityPage.SendMessage | src/app/tenant/community/page.tsx:168-183 | no-op for blank text, no complaint, no user or a failed insert; otherwise logs the untrimmed text, clears the box and reloads the thread; never touches the complaints |
| Community.CommunityPage.ClickEscalate | src/app/tenant/community/page.tsx:255-276 | the selected complaint's new status is `Step` of the old one; only from open, confirmed and with a successful update: the store row escalated and time stamped, at most one note logged, thread reloaded, the list on screen left as it was; otherwise nothing changes |
| Community.CommunityPage.ClickResolve | src/app/tenant/community/page.tsx:278-295 | the selected complaint's new status is `Step` of the old one; from open or escalated with a successful update: the store row resolved, at most one note logged, thread reloaded, the list on screen left as it was; otherwise nothing changes |
| Community.StaleListReescalates | src/app/tenant/community/page.tsx:255-295 | resolving a complaint, opening another, then reopening the first from the unrefreshed list lets it be escalated: its store row goes from resolved to escalated |
| Tasks.Toggled | src/app/landlord/tasks/page.tsx:117 | completed becomes pending; pending and in progress become completed |
| Tasks.ToggleTwice | src/app/landlord/tasks/page.tsx:117 | two toggles restore pending and completed and take in progress to pending |
| Tasks.NewTask | src/app/landlord/tasks/page.tsx:93-101 | a new task is pending with no completion time; an empty description or property becomes null, otherwise the draft's value |
| Tasks.FilterTasks | src/app/landlord/tasks/page.tsx:135-137 | "all" returns the list; a status keeps exactly the tasks with that status, in their order |
| Tasks.Count | src/app/landlord/tasks/page.tsx:141-143 | a status count never exceeds the number of tasks |
| Tasks.FilterCount | src/app/landlord/tasks/page.tsx:135-143 | the count shown for a status is the length of that filter's list |
| Tasks.Stats | src/app/landlord/tasks/page.tsx:139-144 | total is the number of tasks; completed never exceeds it |
| Tasks.StatsPartition | src/app/landlord/tasks/page.tsx:139-144 | pending + in progress + completed == total |
| Tasks.Progress | src/app/landlord/tasks/page.tsx:191 | 0 without tasks, otherwise completed/total·100; within [0, 100]; 100 exactly when every task is completed |
| Tasks.OverdueIffEarlierDay | src/app/landlord/tasks/page.tsx:155-158 | overdue exactly when there is a due date on an earlier calendar day than now |
| Tasks.PriorityColor | src/app/landlord/tasks/page.tsx:146-153 | the grey default exactly for a priority other than high, medium, low |
| Tasks.WithoutId | src/app/landlord/tasks/page.tsx:130-133 | keeps exactly the tasks with another id, in order |
| Tasks.TaskBoard.constructor | src/app/landlord/tasks/page.tsx:41-50 | filter "all", form closed, blank draft with priority "medium" |
| Tasks.TaskBoard.Visible | src/app/landlord/tasks/page.tsx:135-137 | the list on screen holds exactly the tasks the filter lets through ("all", or that status), in their order |
| Tasks.TaskBoard.OpenModal | src/app/landlord/tasks/page.tsx:176 | opens the form, nothing else |
| Tasks.TaskBoard.SetFilter | src/app/landlord/tasks/page.tsx:202 | sets the filter, nothing else |
| Tasks.TaskBoard.ToggleStatus | src/app/landlord/tasks/page.tsx:116-128 | on success exactly the rows with the task's id get the toggled status and a completion time set to now exactly when completed; rows stay consistent; a failed update changes nothing |
| Tasks.TaskBoard.CreateTask | src/app/landlord/tasks/page.tsx:89-114 | no-op without the open form, a title, a user or a successful insert; otherwise adds `NewTask` of the draft, closes and resets the form |
| Tasks.TaskBoard.DeleteTask | src/app/landlord/tasks/page.tsx:130-133 | on success removes exactly the rows with that id |
| Finances.CategoriesOf | src/app/landlord/finances/page.tsx:37-40 | four income and six expense categories, none empty |
| Finances.CategoriesDisjoint | src/app/landlord/finances/page.tsx:37-40 | no category belongs to both types |
| Finances.FilterTransactions | src/app/landlord/finances/page.tsx:123-125 | "all" returns the list; a type keeps exactly the transactions of that type; order is kept and the list never grows |
| Finances.TotalAppend | src/app/landlord/finances/page.tsx:128-133 | a type's total over two lists is the sum of their totals |
| Finances.TotalsPartition | src/app/landlord/finances/page.tsx:128-133 | income plus expense total is the sum of every amount |
| Finances.TotalOfFilter | src/app/landlord/finances/page.tsx:123-133 | a type's total is the sum over what that type's filter shows |
| Finances.MonthlyAtMostTotal | src/app/landlord/finances/page.tsx:136-142 | with no negative amounts, a month's figure is between 0 and the all-time figure |
| Finances.Stats | src/app/landlord/finances/page.tsx:127-152 | the totals and the month's figures by type, and both nets as income minus expense |
| Finances.BlankDraft | src/app/landlord/finances/page.tsx:49-56 | the form starts as income with no category and no amount, dated today |
| Finances.NewTransaction | src/app/landlord/finances/page.tsx:99-107 | the inserted row keeps type, category, date and amount; an empty description or property becomes null |
| Finances.FinancesPage.constructor | src/app/landlord/finances/page.tsx:43-56 | filter "all", form closed, blank draft, category valid |
| Finances.FinancesPage.OpenModal | src/app/landlord/finances/page.tsx:170 | opens the form, nothing else |
| Finances.FinancesPage.SetFilter | src/app/landlord/finances/page.tsx:244 | sets the filter, nothing else |
| Finances.FinancesPage.Visible | src/app/landlord/finances/page.tsx:123-125 | the list on screen holds exactly the transactions the filter lets through ("all", or that type), in ledger order, and is no longer than the ledger |
| Finances.FinancesPage.SetType | src/app/landlord/finances/page.tsx:326-333 | switching type clears the category |
| Finances.FinancesPage.SelectCategory | src/app/landlord/finances/page.tsx:362-369 | only the empty choice or a category of the current type is taken; the form stays valid |
| Finances.InsertByDate | src/app/landlord/finances/page.tsx:69-73 | the refetched ledger is the old one plus the new row, as multisets |
| Finances.InsertKeepsNewestFirst | src/app/landlord/finances/page.tsx:69-73 | inserting by date keeps a latest-first ledger latest-first, as the fetch's `date` descending order has it |
| Finances.FinancesPage.CreateTransaction | src/app/landlord/finances/page.tsx:95-121 | no-op without the open form, amount, category, date, user or successful insert; otherwise the refetched ledger has the new row among the others by date, the form closes and resets; a latest-first ledger stays latest-first; a stored category belongs to its type |
| Statistics.Occupied | src/app/landlord/statistics/page.tsx:70 | no more units are let than exist |
| Statistics.RevenueNonNegative | src/app/landlord/statistics/page.tsx:71-73 | with no negative rent, revenue is never negative |
| Statistics.StatsOf | src/app/landlord/statistics/page.tsx:68-85 | a card keeps the name, lets no more units than exist, and is zero for a property without units |
| Statistics.OccupiedAtMostUnits | src/app/landlord/statistics/page.tsx:75-76 | across properties the let units never exceed the units |
| Statistics.OccupancyRate | src/app/landlord/statistics/page.tsx:92 | 0 without units; otherwise the nearest whole percentage of occupied/total, halves up; within [0, 100]; 100 when every unit is let |
| Statistics.RoundingBounds | src/app/landlord/statistics/page.tsx:92 | the integer quotient used for `Math.round` is the nearest percentage and stays in [0, 100] |
| Statistics.ComputeStatistics | src/app/landlord/statistics/page.tsx:63-93 | one card per property in order; totals are the sums of the cards; properties counted; rate is `OccupancyRate` of the sums, in [0, 100] |
| Statistics.Months | src/app/landlord/statistics/page.tsx:98-116 | the month labels of the transactions, each once |
| Statistics.MonthsOccur | src/app/landlord/statistics/page.tsx:98-116 | every label's month occurs among the transactions |
| Statistics.MonthsInFirstAppearanceOrder | src/app/landlord/statistics/page.tsx:98-116 | the labels come in the order in which their months first occur among the transactions |
| Statistics.BucketSumsUpdate | src/app/landlord/statistics/page.tsx:110 | replacing one bucket changes the bucket sums by the difference |
| Statistics.IndexOf | src/app/landlord/statistics/page.tsx:102 | finds the bucket of a month, or reports that there is none |
| Statistics.AddToBucket | src/app/landlord/statistics/page.tsx:102-110 | adding a transaction to its existing month keeps every bucket equal to its month's sums |
| Statistics.NewBucket | src/app/landlord/statistics/page.tsx:102-110 | a transaction of a new month opens a bucket at the end and keeps the grouping |
| Statistics.ComputeMonthly | src/app/landlord/statistics/page.tsx:97-116 | one bucket per month in first-appearance order with that month's income (type `income`) and expenses (every other type); bucket sums equal overall income and expenses |
| Statistics.NoMonthNoSums | src/app/landlord/statistics/page.tsx:100-108 | a month no transaction falls in has no income and no expenses |
| Statistics.MaxValue | src/app/landlord/statistics/page.tsx:135 | at least 1, at least every bar, and equal to 1 or to some bar |
| Statistics.ChartBuckets | src/app/landlord/statistics/page.tsx:215 | the last six buckets, or all when there are fewer |
| Concierge.WordPoints | src/app/tenant/concierge/page.tsx:109-113 | a word of at most three characters earns nothing; no word earns more than 15 |
| Concierge.WordScore | src/app/tenant/concierge/page.tsx:108-114 | the words together earn at most 15 each |
| Concierge.ItemScore | src/app/tenant/concierge/page.tsx:98-114 | an entry scores at most 50 + 20 + 15 per query word |
| Concierge.EmptyTopicAlwaysMatches | src/app/tenant/concierge/page.tsx:104 | an entry with an empty topic scores at least 50 for any query |
| Concierge.QueryCaseIgnored | src/app/tenant/concierge/page.tsx:91-101 | a query and its upper-case form score every entry alike |
| Concierge.Score | src/app/tenant/concierge/page.tsx:98-114 | the scoring loop computes `ItemScore` |
| Concierge.FirstBestUnique | src/app/tenant/concierge/page.tsx:116-119 | at most one entry is the first with the highest score |
| Concierge.FindBestResponse | src/app/tenant/concierge/page.tsx:90-127 | the reply is the first best entry's content when some entry scores above 10, and the fallback sentence otherwise (so also for an empty knowledge base) |
| Concierge.ConciergePage.constructor | src/app/tenant/concierge/page.tsx:21-25 | the transcript holds only the greeting; input empty; no reply pending |
| Concierge.ConciergePage.Send | src/app/tenant/concierge/page.tsx:73-80 | ignored for blank input or while a reply is pending; otherwise appends the trimmed question, clears the input and waits for the reply |
| Concierge.ConciergePage.ReplyArrives | src/app/tenant/concierge/page.tsx:83-87 | appends exactly one bot message that answers the pending question, and stops waiting |
| OnboardingCarousel.Progress | src/components/mobile/OnboardingCarousel.tsx:133 | (index+1)/3·100, in (0, 100], 100 on the last slide |
| OnboardingCarousel.ProgressIncreasing | src/components/mobile/OnboardingCarousel.tsx:133 | the bar grows strictly with the index |
| OnboardingCarousel.Carousel.constructor | src/components/mobile/OnboardingCarousel.tsx:33-34 | first slide, no direction |
| OnboardingCarousel.Carousel.NextSlide | src/components/mobile/OnboardingCarousel.tsx:36-43 | before the last slide moves forward with direction 1; on the last slide reports completion and changes nothing; the index stays on a slide |
| OnboardingCarousel.Carousel.PrevSlide | src/components/mobile/OnboardingCarousel.tsx:45-50 | after the first slide moves back with direction -1; on the first changes nothing; the index stays on a slide |
| EmailVerification.Join | src/components/mobile/EmailVerificationScreen.tsx:45 | no cells join to the empty code; with at most one character per cell the code is no longer than the cells |
| EmailVerification.JoinFilled | src/components/mobile/EmailVerificationScreen.tsx:45 | with every cell filled the code reads the cells in order |
| EmailVerification.CodeInput.constructor | src/components/mobile/EmailVerificationScreen.tsx:21 | six empty cells, focus on the first |
| EmailVerification.CodeInput.HandleChange | src/components/mobile/EmailVerificationScreen.tsx:24-35 | a value longer than one character is refused; otherwise only that cell changes, and focus moves on exactly when the value is non-empty and the cell is not the last |
| EmailVerification.CodeInput.HandleKeyDown | src/components/mobile/EmailVerificationScreen.tsx:37-41 | Backspace in an empty cell after the first moves focus back one; cells never change |
| EmailVerification.CodeInput.HandleSubmit | src/components/mobile/EmailVerificationScreen.tsx:43-47 | passes the joined cells, at most six characters |
| MobileAppShell.StepSeparatesTabAndView | src/components/mobile/MobileAppShell.tsx:106-254 | tab buttons change only the tab; every other control changes only the view |
| MobileAppShell.HubAdjacentToPickerOnly | src/components/mobile/MobileAppShell.tsx:162-194 | the hub is entered only from the picker and left only to the picker, never straight to main |
| MobileAppShell.ViewsKeepTab | src/components/mobile/MobileAppShell.tsx:106-212 | without tab clicks the tab never changes |
| MobileAppShell.PickerExits | src/components/mobile/MobileAppShell.tsx:106-178 | backdrop, close button and close callback return to main; a drag does exactly when offset > 100 or velocity > 500 |
| MobileAppShell.AppShell.constructor | src/components/mobile/MobileAppShell.tsx:17-18 | tab home, view main |
| MobileAppShell.AppShell.Handle | src/components/mobile/MobileAppShell.tsx:94-254 | the shell after an event is `Step` of the shell before it |
| LoadingDemo.Step | src/app/mobile/loading-demo/page.tsx:16-50 | an event of the screen on display leads to its target; any change goes from the event's source to its target |
| LoadingDemo.StepFollowsFlow | src/app/mobile/loading-demo/page.tsx:16-50 | every change of screen is to the next one of loading → welcome → onboarding → authenticated → loading |
| LoadingDemo.NoSkipping | src/app/mobile/loading-demo/page.tsx:17-22 | without "get started", the flow from loading never gets past welcome |
| LoadingDemo.WelcomeStays | src/app/mobile/loading-demo/page.tsx:21-23 | without "get started", welcome stays |
| LoadingDemo.FullCycle | src/app/mobile/loading-demo/page.tsx:17-50 | load, get started, finish onboarding and restart return to loading |
| LoadingDemo.Demo.constructor | src/app/mobile/loading-demo/page.tsx:11 | starts on the loading screen |
| LoadingDemo.Demo.Handle | src/app/mobile/loading-demo/page.tsx:16-50 | the screen after an event is `Step` of the screen before it |
| LoadingScreen.Tick | src/components/mobile/LoadingScreen.tsx:14-21 | below 100 adds 2; at or above 100 gives 100 |
| LoadingScreen.AfterClosedForm | src/components/mobile/LoadingScreen.tsx:9-21 | after n ticks the progress is min(2n, 100) |
| LoadingScreen.AfterBounds | src/components/mobile/LoadingScreen.tsx:9-21 | from 0 progress stays even, within [0, 100] and never decreases |
| LoadingScreen.CompletionTick | src/components/mobile/LoadingScreen.tsx:15-18 | progress has reached 100 exactly from the 50th tick on |
| LoadingScreen.Loader.constructor | src/components/mobile/LoadingScreen.tsx:9 | progress 0, timer running, completion not scheduled |
| LoadingScreen.Loader.TimerTick | src/components/mobile/LoadingScreen.tsx:13-22 | steps the progress; the timer stops and completion is scheduled exactly on a tick that sees 100 or more; progress never decreases |
| Sidebar.BelowIsActive | src/components/landlord/Sidebar.tsx:30 | every page below a link's path highlights it |
| Sidebar.SiblingNotActive | src/components/landlord/Sidebar.tsx:30 | a sibling path that only shares a prefix does not |
| Sidebar.ActiveLinksNested | src/components/landlord/Sidebar.tsx:30 | two highlighted links are the same path or one lies below the other |
| Sidebar.InquiryCount | src/components/landlord/Sidebar.tsx:53 | a missing count becomes 0 |
| Sidebar.NavItems | src/components/landlord/Sidebar.tsx:79-164 | thirteen links; only Requests and Invoices carry a badge |
| Sidebar.BadgesShown | src/components/landlord/Sidebar.tsx:109-135 | the Invoices badge always shows, the Requests badge exactly when the count is positive, no other badge |
| Sidebar.InquiryBadge.constructor | src/components/landlord/Sidebar.tsx:28 | the count starts at 0 |
| Sidebar.InquiryBadge.Poll | src/components/landlord/Sidebar.tsx:40-57 | without a user or on a failed query the count is kept; otherwise it becomes the count, missing as 0 |
| PropertyPicker.FilterProperties | src/components/mobile/PropertyPickerScreen.tsx:43-46 | keeps exactly the properties whose lower-cased name or address contains the lower-cased query, in order |
| PropertyPicker.EmptyQueryKeepsAll | src/components/mobile/PropertyPickerScreen.tsx:43-46 | an empty query keeps every property |
| PropertyPicker.QueryCaseIgnored | src/components/mobile/PropertyPickerScreen.tsx:44-45 | a query and its upper-case form give the same list |
| PropertyPicker.SelectedId | src/components/mobile/PropertyPickerScreen.tsx:75 | selecting a card reports the id of one of the three properties, and that id names no other card |
| PropertyPicker.UnreadBadges | src/components/mobile/PropertyPickerScreen.tsx:8-33 | the unread badge shows for The Lofts and Sunset Villas, not for Skyline Apartments |
| LandlordLayout.Greeting | src/app/landlord/layout.tsx:30-35 | one of the three greetings |
| LandlordLayout.GreetingBands | src/app/landlord/layout.tsx:32-34 | morning exactly before 12, afternoon exactly from 12 before 18, evening exactly from 18 |
| LandlordLayout.BeforeAt | src/app/landlord/layout.tsx:23 | the part of the e-mail before the first `@` |
| LandlordLayout.DisplayName | src/app/landlord/layout.tsx:23 | the full name, else the part of the e-mail before `@`, else "User"; an empty option falls through; never empty |
| LandlordLayout.AvatarInitial | src/app/landlord/layout.tsx:70 | the upper-cased first character of the name, else "U" |
| LandlordLayout.SignedInInitial | src/app/landlord/layout.tsx:23-70 | a signed-in user's initial is the first character of the display name, upper-cased |
| SetupProfile.ProfileForm.constructor | src/components/mobile/SetupProfileScreen.tsx:13-14 | empty username, no avatar |
| SetupProfile.ProfileForm.SetUsername | src/components/mobile/SetupProfileScreen.tsx:88 | sets the username and keeps the avatar |
| SetupProfile.ProfileForm.HandleSubmit | src/components/mobile/SetupProfileScreen.tsx:28-33 | continues exactly when the trimmed username is non-empty, exactly when the button is enabled, with the untrimmed username and the avatar |
| Text.TrimEmptyIffBlank | src/app/tenant/community/page.tsx:169 | `trim()` is empty exactly for an all-whitespace string |
| Text.SplitWs | src/app/tenant/concierge/page.tsx:108 | `split(/\s+/)` gives at least one piece, none containing whitespace |
| Text.SplitFromNoSpace | src/app/tenant/concierge/page.tsx:108 | started from a piece without whitespace, no piece of the split holds whitespace |
| Text.SplitWsJoins | src/app/tenant/concierge/page.tsx:108 | the pieces joined with single spaces give the string with every run of whitespace collapsed to one space, so no text is lost or added |
| Text.Lower | src/components/mobile/PropertyPickerScreen.tsx:44-45 | `toLowerCase` keeps the length and maps each character on its own |
| Text.LowerOfUpper | src/components/mobile/PropertyPickerScreen.tsx:44-45 | lower-casing an upper-cased string equals lower-casing it |
| Text.ContainsIffOccurs | src/app/tenant/concierge/page.tsx:104-105 | `includes` holds exactly when the substring sits at some index |
| Text.OrElse | src/app/landlord/lease-ai/page.tsx:97-99 | `x \|\| fallback`: the value when present and non-empty, the fallback otherwise |
| Text.NullIfEmpty | src/app/landlord/tasks/page.tsx:96-99 | `x \|\| null`: null exactly for the empty string |
| Text.ParseNatToString | src/app/landlord/lease-ai/page.tsx:102 | the decimal text of a month count reads back as that count |
| Calendar.AddMonths | src/app/landlord/lease-ai/page.tsx:92 | `setMonth(getMonth() + n)` moves n whole months and keeps the day |

## Left out

- Database reads and writes, authentication and router navigation. The signed-in user and each write's success are parameters.
- Re-fetching after a write is modelled by where the refetch would show the new row: a new task first (tasks are fetched by `created_at` descending), a new transaction among the others by date (by `date` descending), a new complaint first (by `updated_at` descending). Rows with equal dates or times come back in an order the store does not fix; the model puts the new row before them.
- Community.CommunityPage.ClickEscalate: whether the store moves the `updated_at` of an escalated or resolved row depends on database triggers, which are not part of this model. The store rows keep their places.
- Community.CommunityPage.ClickEscalate: without a signed-in user the source throws while writing the note. The model logs nothing and still reloads the thread. The thread reload comes from the effect on the open complaint (src/app/tenant/community/page.tsx:74-79).
- Community.CommunityPage.ClickResolve: without a signed-in user the source throws while writing the note, as for escalation. The model logs nothing and still reloads the thread through the same effect.
- Community.RunNeverGoesBack: the lifecycle lemmas hold while a complaint stays selected. Reselecting it from the unrefreshed list brings back its old status, and the store row can then go from resolved to escalated (`Community.StaleListReescalates`).
- Statistics.OccupancyRate: rounds the exact fraction. The source rounds the double occupied/total*100, which lands just under .5 for some exact halves (23 of 40 gives 57, 29 of 200 gives 14), where the model gives one more.
- Tasks.Progress: the bar width is an exact real number. The source computes it in double precision.
- OnboardingCarousel.Progress: the bar width is an exact real number. The source computes it in double precision.
- Concierge.WordPoints: a word's length is counted in characters. JavaScript's `length` counts UTF-16 code units, so a word with a character outside the Basic Multilingual Plane, such as an emoji, is longer in the source.
- EmailVerification.CodeInput.HandleChange: a value's length is counted in characters. JavaScript's `length` counts UTF-16 code units, so the source refuses a single emoji that the model accepts.
- `handleDirectMessage` (a conversation lookup in the database) is not part of this model.
- Timers and delays: the 2-second calculation delay, the 1-second concierge delay, the 30-second inquiry poll, and the loading interval and its timeout. Only the step each callback takes is modelled.
- The clipboard copy on the lease page and the `isCalculating` / `copied` flags.
- LeaseAI.LeaseAIPage.Calculate: an unknown lease id crashes the source (`find(...)!`). The model leaves the page unchanged in that case.
- The renewal alerts' suggested rent and market text, which come from `Math.random`.
- Time zones, locales and JavaScript `Date`:
  - dates are civil (year, month, day) values and "now" is a parameter;
  - `setMonth` overflow at the end of a month is not modelled;
  - LeaseAI.DaysUntilExpiry is the difference of day numbers, which equals the rounded-up millisecond difference only when the lease ends at midnight;
  - the month label `toLocaleDateString` produces is given with each statistics transaction.
- Floating-point money, `parseFloat` and `Number`. Amounts are whole numbers, a parsed amount is a parameter, and a non-numeric rent is `None`.
- Text.Lower: `toLowerCase` and `toUpperCase` are modelled for ASCII letters only; other characters pass through unchanged.
- `toLocaleString` number formatting is modelled as comma-grouped digits.
- Animation, CSS, images and the FileReader avatar upload.
- SignUpScreen passes its fields straight through, and its password hints are never enforced. It is not part of this model.
- Presentation-only pages and components (marketing, help, messages, tenants, the request modal, dashboards, cards and other mobile screens) are not part of this model.
