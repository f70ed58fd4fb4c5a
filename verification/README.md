# FlowBarber in Dafny

FlowBarber is a small barbershop web app. A barber records each haircut as a service with a name, a price, a payment method (`dinheiro`, cash, or `pagamento online`) and a date. The app shows today's services and their totals, can clear the day, and exports it as a PDF. It also shows analytics over a week, a fortnight or a month, keeps prepaid client plans with a count of remaining cuts, imports old reports pasted as text, and lets the barber edit the catalogue of predefined services.

This project models the data logic behind those screens and proves what it promises:

- `Domain`: the records and the default catalogue.
- `ServicesStore` and `PlansStore`: the two stores, each a class over a list, with its load step, its list rewrites and the choice of notification after a change.
- `ImportParser`: the line-by-line report parser and the import sheet's confirm flow.
- `ImportExample`: the report line `10/06/24 Corte padrão dinheiro R$30,00`, read step by step into its record.
- `Summaries` and `Analytics`: the fold into cash, online and total, the range resolution, the interval filter and the day-bucketed chart.
- `ServiceSheet`, `PlanSheet`, `Settings`, `PlansPage` and `HomePage`: the forms and pages that drive the stores.
- `Seqs`, `Text` and `Dates`: generic sequence functions (filter, stable insertion sort, find, map), the string functions the source calls (`trim`, `toLowerCase`, `lastIndexOf`, `split`, `join`), and a Gregorian calendar with the `yyyy-MM-dd` and `dd/MM` formats.

Dates are valid Gregorian calendar dates, numbered by days since 0001-01-01. An instant is a date plus milliseconds since its midnight. "Now", "today", fresh ids and the outcome of a storage write are parameters.

## Model

The table lists the members that carry a contract. Definitions without one are specified by the lemmas about them:
- `ImportParser.ReadPrice` by `ReadPriceWhole`, `ReadPriceComma` and `ReadPriceThousands`.
- `ServiceSheet.Toggle` by `ToggleFlipsOnlyItsName` and `ToggleTwiceRestores`.
- `ServiceSheet.DerivedName` by `DerivedAfterAppend`.
- `ServiceSheet.DerivedPrice` by `DerivedPriceAppend` and `DerivedPriceSplits`.
- `ServiceSheet.SchemaAccepts` and `PlanSheet.SchemaAccepts` by the `Submitted` functions, which hold a value exactly when the schema accepts.
- `PlansStore.CutOne` and `PlansStore.Exhausted` by `UseCut`.
- `HomePage.TodayServices` by `TodayServicesExactly`.
- `HomePage.DailySummary` by `DailySummaryBalanced`.
- `HomePage.RowY` by `RowsInsideMargins` and `LayOutRows`.
- `Settings.ToSave` and `Settings.Keepable` by `SaveKeepsExactly`.
- `Settings.DropIndex` by `DropIndexRemovesOne`.
- `Summaries.FoldTotals` and `Summaries.TotalsOf` by `Summarize`, `FoldTotalsSplit` and `SummaryBalanced`.
- `ServicesStore.NewerOrSame` by `NewerOrSameIsTotalPreorder` and `NewestFirst`.
- `ServicesStore.IsToday` by `ClearToday`, `ClassifyChange` and `HomePage.TodayServicesExactly`.

| member | source | states |
|---|---|---|
| Domain.MethodLiteral | src/lib/types.ts:1 | a payment method's literal is one of the two strings of the `PaymentMethod` union |
| Domain.WithId | src/lib/types.ts:3-9 | a service built from an id and `Omit<Service,'id'>` data has that id and exactly that data |
| Domain.PlanWithId | src/hooks/use-client-plans.ts:85 | `{ id, ...updatedPlanData }` has that id and exactly those fields |
| ServicesStore.NewerOrSameIsTotalPreorder | src/hooks/use-services.ts:79 | the newest-first comparator on parsed dates is a total preorder, so sorting by it is well defined |
| ServicesStore.NewestFirst | src/hooks/use-services.ts:79 | the stable sort is a permutation of the list, ordered newest date first |
| ServicesStore.AddTo | src/hooks/use-services.ts:73-81 | adding grows the list by exactly one, keeps every existing service, adds the service with the given fields and the fresh id, and leaves the list newest first |
| ServicesStore.Replace | src/hooks/use-services.ts:85 | the map keeps the length; services with the id become `{id, ...data}` and all others are unchanged |
| ServicesStore.UpdateIn | src/hooks/use-services.ts:83-88 | updating keeps the length, holds exactly the replaced services, and is newest first |
| ServicesStore.DeleteFrom | src/hooks/use-services.ts:90-92 | deleting leaves no service with the id, and keeps every other service as often as it occurred |
| ServicesStore.ClearToday | src/hooks/use-services.ts:94-99 | clearing leaves no service dated today, and keeps every other service as often as it occurred |
| ServicesStore.UpdateUnknownId | src/hooks/use-services.ts:83-88 | with an unknown id the multiset of services is unchanged, and a list already newest first is unchanged |
| ServicesStore.UpdateIdempotent | src/hooks/use-services.ts:83-88 | updating twice with the same id and data gives the same list as updating once |
| ServicesStore.AddedOnlyHolder | src/hooks/use-services.ts:75-77 | with a fresh id, the only service holding that id after adding is the new one |
| ServicesStore.DeleteAbsent | src/hooks/use-services.ts:90-92 | deleting an absent id changes nothing |
| ServicesStore.RemovalKeepsOrder | src/hooks/use-services.ts:90-99 | delete and clear distribute over concatenation, so the kept services stay in their relative order, and a newest-first list stays newest first |
| ServicesStore.ClearWithoutToday | src/hooks/use-services.ts:94-99 | clearing a list with nothing dated today changes nothing |
| ServicesStore.ClassifyChange | src/hooks/use-services.ts:35-58 | an unchanged list gives no notice; "added" only when the list grew; "deleted" or "cleared" only when it shrank, and a shrunk list always gives one of the two: "cleared" exactly when the previous list had a service dated today and the new one has none, "deleted" otherwise; "updated" only at equal length; never the error notice |
| ServicesStore.AddAnnounced | src/hooks/use-services.ts:36-40 | adding under a fresh id announces "added" with the new service's name |
| ServicesStore.ClearAnnounced | src/hooks/use-services.ts:41-45 | clearing a day that had services announces "cleared" |
| ServicesStore.DeleteAnnounced | src/hooks/use-services.ts:41-48 | deleting a service while another one dated today remains announces "deleted" |
| ServicesStore.DeleteLastOfTodayClears | src/hooks/use-services.ts:41-48 | deleting the only service dated today announces "Lista limpa", not "Serviço deletado", because the rule looks only at how many of today's services are left |
| ServicesStore.FindById | src/hooks/use-services.ts:51 | with unique ids, finding by a service's id gives that service |
| ServicesStore.ChangedOnlyUpdated | src/hooks/use-services.ts:50-53 | with unique ids, the only service of an updated list that differs from its stored form is the updated one |
| ServicesStore.UpdateAnnounced | src/hooks/use-services.ts:49-56 | with unique ids, an update that changes a service's data announces "updated" with its new name |
| ServicesStore.ServiceStore.Load | src/hooks/use-services.ts:16-28 | the store becomes loaded; a parseable stored list becomes the list and the previous list; absent or unparseable data leaves the list as it was |
| ServicesStore.ServiceStore.AddService | src/hooks/use-services.ts:73-81 | the list becomes `AddTo` of the old list |
| ServicesStore.ServiceStore.UpdateService | src/hooks/use-services.ts:83-88 | the list becomes `UpdateIn` of the old list |
| ServicesStore.ServiceStore.DeleteService | src/hooks/use-services.ts:90-92 | the list becomes `DeleteFrom` of the old list |
| ServicesStore.ServiceStore.ClearServices | src/hooks/use-services.ts:94-99 | the list becomes `ClearToday` of the old list |
| ServicesStore.ServiceStore.Persist | src/hooks/use-services.ts:30-71 | before loading nothing happens; a failed write gives the error notice and changes nothing; a successful write stores the list, gives the classified notice and records the list as the previous one |
| PlansStore.ByNameIsTotalPreorder | src/hooks/use-client-plans.ts:79 | the name comparator is a total preorder |
| PlansStore.InNameOrder | src/hooks/use-client-plans.ts:79 | the stable sort is a permutation of the list, ordered by client name |
| PlansStore.NewPlan | src/hooks/use-client-plans.ts:74-78 | a new plan has the fresh id, the given fields, and as many remaining cuts as total cuts |
| PlansStore.AddPlanTo | src/hooks/use-client-plans.ts:72-81 | adding grows the list by exactly one, keeps every plan, adds the new plan, and leaves the list sorted by name |
| PlansStore.ReplacePlan | src/hooks/use-client-plans.ts:85 | the map keeps the length; plans with the id get every non-id field replaced, and all others are unchanged |
| PlansStore.UpdatePlanIn | src/hooks/use-client-plans.ts:83-88 | updating keeps the length, holds exactly the replaced plans, and is sorted by name |
| PlansStore.DeletePlanFrom | src/hooks/use-client-plans.ts:90-92 | deleting leaves no plan with the id, and keeps every other plan as often as it occurred |
| PlansStore.UseCut | src/hooks/use-client-plans.ts:94-106 | using a cut keeps the length and every field but the remaining cuts; a plan with the id and cuts left loses exactly one and every other plan keeps its count; there are no more warnings than plans, and each warning is the name of a plan with the id and no cut left |
| PlansStore.PlanNames | src/hooks/use-client-plans.ts:99 | the names of the plans, one per plan, in order |
| PlansStore.WarningsNameExhausted | src/hooks/use-client-plans.ts:97-100 | every plan the warning filter keeps is a plan of the list with the id and no cut left |
| PlansStore.ResetCuts | src/hooks/use-client-plans.ts:108-117 | renewing sets the remaining cuts of each plan with the id to its total, whatever the prior value, and changes nothing else |
| PlansStore.UseCutUnknownId | src/hooks/use-client-plans.ts:94-106 | using a cut with an unknown id changes nothing and warns of nothing |
| PlansStore.UseCutExhausted | src/hooks/use-client-plans.ts:100-103 | using a cut of a plan with none left changes nothing and warns once, naming the plan's client |
| PlansStore.CounterKeepsRange | src/hooks/use-client-plans.ts:94-117 | using a cut and renewing both keep every plan within `0 <= remainingCuts <= totalCuts` |
| PlansStore.ResetIdempotent | src/hooks/use-client-plans.ts:108-117 | renewing twice gives the same list as renewing once |
| PlansStore.UpdatePlanUnknownId | src/hooks/use-client-plans.ts:83-88 | with an unknown id the multiset of plans is unchanged, and a list already sorted by name is unchanged |
| PlansStore.DeletePlanKeepsOrder | src/hooks/use-client-plans.ts:90-92 | deleting an absent id changes nothing; deleting distributes over concatenation, so the rest keep their order; a sorted list stays sorted |
| PlansStore.AddKeepsRange | src/hooks/use-client-plans.ts:72-81 | adding a plan with a non-negative number of cuts keeps every plan in range |
| PlansStore.ClassifyPlanChange | src/hooks/use-client-plans.ts:35-59 | "deleted" exactly when the list shrank; "added" only when it grew; "cut used", "renewed" and "updated" only at equal length; never the error notice |
| PlansStore.FindPlanById | src/hooks/use-client-plans.ts:45 | with unique ids, finding by a plan's id gives that plan |
| PlansStore.UnchangedSilent | src/hooks/use-client-plans.ts:43-58 | with unique ids, an unchanged list gives no notice |
| PlansStore.CutAnnounced | src/hooks/use-client-plans.ts:51-52 | using one of a plan's remaining cuts announces "cut used" with the client's name |
| PlansStore.RenewAnnounced | src/hooks/use-client-plans.ts:53-54 | renewing a plan that had used cuts announces "renewed" with the client's name |
| PlansStore.AddPlanAnnounced | src/hooks/use-client-plans.ts:38-42 | adding under a fresh id announces "added" with the client's name |
| PlansStore.DeletePlanAnnounced | src/hooks/use-client-plans.ts:36-37 | deleting a plan that is present announces "deleted" |
| PlansStore.PlanStore.Load | src/hooks/use-client-plans.ts:16-28 | the store becomes loaded; a parseable stored list becomes the list and the previous list; otherwise the list stays as it was |
| PlansStore.PlanStore.AddPlan | src/hooks/use-client-plans.ts:72-81 | the list becomes `AddPlanTo` of the old list |
| PlansStore.PlanStore.UpdatePlan | src/hooks/use-client-plans.ts:83-88 | the list becomes `UpdatePlanIn` of the old list |
| PlansStore.PlanStore.DeletePlan | src/hooks/use-client-plans.ts:90-92 | the list becomes `DeletePlanFrom` of the old list |
| PlansStore.PlanStore.UseCutOf | src/hooks/use-client-plans.ts:94-106 | the list and the warnings are those of `UseCut`, and a list in range stays in range |
| PlansStore.PlanStore.ResetCutsOf | src/hooks/use-client-plans.ts:108-117 | the list becomes `ResetCuts` of the old list, and a list in range stays in range |
| PlansStore.PlanStore.Persist | src/hooks/use-client-plans.ts:30-70 | before loading nothing happens; a failed write gives the error notice and changes nothing; a successful write stores the list, gives the classified notice and records the list as the previous one |
| Text.TrimStartSpec | src/components/ImportDataSheet.tsx:65 | the start-trimmed string is a suffix of the input, preceded only by whitespace, and does not start with whitespace |
| Text.TrimEndSpec | src/components/ImportDataSheet.tsx:65 | the end-trimmed string is a prefix of the input, followed only by whitespace, and does not end with whitespace |
| Text.Trim | src/components/ImportDataSheet.tsx:65 | a trimmed string is no longer than the input and starts and ends with no whitespace |
| Text.TrimStartOver | src/components/ImportDataSheet.tsx:65 | leading whitespace is removed up to the first other character |
| Text.TrimEndOver | src/components/ImportDataSheet.tsx:65 | trailing whitespace is removed back to the last other character |
| Text.TrimAround | src/components/ImportDataSheet.tsx:65 | `trim` of a text with no whitespace at its ends, wrapped in whitespace, gives that text back |
| Text.ToLower | src/components/ImportDataSheet.tsx:56 | lower-casing keeps the length and maps each character on its own |
| Text.LowerStartsWithMeans | src/components/ImportDataSheet.tsx:56 | the header test holds exactly when the lower-cased line starts with the marker |
| Text.LexTotal | src/hooks/use-client-plans.ts:79 | any two names are ordered one way or the other |
| Text.LexTransitive | src/hooks/use-client-plans.ts:79 | the name order is transitive |
| Text.LastIndexOf | src/components/ImportDataSheet.tsx:80-81 | `lastIndexOf` gives an occurrence with no later occurrence, or says there is none at all |
| Text.IndexOfChar | src/components/ImportDataSheet.tsx:100 | the first occurrence of a character, with none before it, or none at all |
| Text.SplitLines | src/components/ImportDataSheet.tsx:54 | `split('\n')` gives at least one line, none holding a newline, and joining them back gives the text |
| Text.JoinWithSnoc | src/components/AddServiceSheet.tsx:80 | joining one more part appends the separator and the part |
| Text.Utf16Length | src/components/ImportDataSheet.tsx:66 | a string's JavaScript length lies between its number of code points and twice that |
| Text.NatToString | src/components/ImportDataSheet.tsx:106 | the decimal digits of a number read back as that number |
| Text.PadNat | src/components/ImportDataSheet.tsx:106 | zero padding keeps the value and gives at least the width |
| Dates.DaysInMonth | src/app/analytics/page.tsx:55 | every month has 28 to 31 days |
| Dates.YearLength | src/app/analytics/page.tsx:90 | a year has 365 days, or 366 when it is a leap year |
| Dates.NextDay | src/app/analytics/page.tsx:90 | `setDate(getDate() + 1)` moves to the day numbered one higher |
| Dates.PrevDay | src/app/analytics/page.tsx:51 | the previous day is the day whose next day is the input |
| Dates.SubDays | src/app/analytics/page.tsx:51 | `subDays(now, n)` is the day numbered n lower |
| Dates.AddDays | src/app/analytics/page.tsx:90 | n steps of the chart loop reach the day numbered n higher |
| Dates.FirstOfMonth | src/app/analytics/page.tsx:54 | `startOfMonth` is day 1 of the same month |
| Dates.LastOfMonth | src/app/analytics/page.tsx:55 | `endOfMonth` is the month's last day |
| Dates.FormatDayMonth | src/app/analytics/page.tsx:104 | a `dd/MM` label has five characters with a slash in the middle; its first two digits denote the day and its last two the month |
| Dates.FormatIso | src/components/ImportDataSheet.tsx:106 | `format(date, 'yyyy-MM-dd')` is at least ten characters long; `Dates.IsoRoundTrip` reads it back as the same date |
| Dates.ParseIso | src/app/analytics/page.tsx:65 | only a ten-character `yyyy-MM-dd` string parses |
| Dates.IsoRoundTrip | src/components/ImportDataSheet.tsx:106 | formatting a date of a four-digit year as `yyyy-MM-dd` and parsing it back gives the date |
| Dates.DayNumberInjective | src/app/analytics/page.tsx:90-93 | distinct dates have distinct day numbers, so the chart's keys are distinct |
| ImportParser.FirstHeaderIsFirst | src/components/ImportDataSheet.tsx:56 | the search finds the first line that passes the header test, and only fails when no line passes it |
| ImportParser.FindHeaderPicksFirst | src/components/ImportDataSheet.tsx:56-62 | the header is the first line starting with the main marker, or, only when no line does, the first starting with the fallback marker; neither means no header |
| ImportParser.FindHeader | src/components/ImportDataSheet.tsx:56-62 | the header index, when there is one, is the index of a line |
| ImportParser.ReadDateToken | src/components/ImportDataSheet.tsx:68-72 | a read date has the token's day and month and the year resolved from its two digits |
| ImportParser.ChooseMethod | src/components/ImportDataSheet.tsx:80-92 | the chosen keyword occurs at the given index, which is its last occurrence, and the other keyword does not occur after it; online wins when it occurs last; neither keyword means no choice |
| ImportParser.SkipSpaces | src/components/ImportDataSheet.tsx:97 | the price pattern's `\s*` skips exactly the whitespace run |
| ImportParser.PriceRunEnd | src/components/ImportDataSheet.tsx:97 | the `[\d,.]+` run ends at the first other character |
| ImportParser.FirstPriceFrom | src/components/ImportDataSheet.tsx:97 | the regex match starts at the first position where `R$` is followed by a price run, or there is none |
| ImportParser.PriceCapture | src/components/ImportDataSheet.tsx:97 | there is a capture exactly when the pattern matches somewhere; the capture is the whole run of digits, commas and dots right after the leftmost match's `R$` and the whitespace after it; it is non-empty |
| ImportParser.PriceCharNotSpace | src/components/ImportDataSheet.tsx:97 | no character of `[\d,.]` is whitespace |
| ImportParser.SkipSpacesTo | src/components/ImportDataSheet.tsx:97 | the `\s*` after `R$` stops at the first non-whitespace character |
| ImportParser.PriceRunTo | src/components/ImportDataSheet.tsx:97 | the group `[\d,.]+` stops at the first character outside the class |
| ImportParser.NoMatchBefore | src/components/ImportDataSheet.tsx:97 | the pattern cannot match before the first `$` |
| ImportParser.FirstPriceIs | src/components/ImportDataSheet.tsx:97 | with no `$` before a match, that match is the leftmost |
| ImportParser.PriceCaptureFinds | src/components/ImportDataSheet.tsx:97 | for a text with no `$` before its `R$`, the capture is exactly the run of price characters after `R$` and the whitespace after it |
| ImportParser.ReplaceFirst | src/components/ImportDataSheet.tsx:100 | `replace` with a string pattern changes only the first occurrence, and nothing when there is none |
| ImportParser.LeadingDigits | src/components/ImportDataSheet.tsx:101 | the digit prefix is the longest run of digits at the start |
| ImportParser.LeadingDigitsOfRun | src/components/ImportDataSheet.tsx:101 | a run of digits followed by a non-digit is read to its end |
| ImportParser.ParseDecimal | src/components/ImportDataSheet.tsx:101 | `parseFloat` is NaN exactly when the text starts with neither a digit nor a dot followed by a digit, and a number it reads is non-negative |
| ImportParser.FractionDigits | src/components/ImportDataSheet.tsx:101 | the fraction `parseFloat` reads is the run of digits right after a point, and nothing without a point |
| ImportParser.ParseDecimalPoint | src/components/ImportDataSheet.tsx:101 | with the leading digits and the digits after the point known, the number is the whole part plus the fraction over its power of ten |
| ImportParser.ParseDecimalNoPoint | src/components/ImportDataSheet.tsx:101 | with leading digits and no point after them, the number is the value of those digits |
| ImportParser.ParseDecimalWhole | src/components/ImportDataSheet.tsx:101 | digits followed by text that neither continues them nor starts a fraction read as the digits' value |
| ImportParser.ParseDecimalFraction | src/components/ImportDataSheet.tsx:101 | digits, a point and more digits followed by a non-digit read as the whole part plus the fraction |
| ImportParser.ReplaceFirstAt | src/components/ImportDataSheet.tsx:100 | `replace` with a one-character pattern replaces its first occurrence only |
| ImportParser.ReadPriceWhole | src/components/ImportDataSheet.tsx:100-101 | a capture of digits only reads as that whole number |
| ImportParser.ReadPriceComma | src/components/ImportDataSheet.tsx:100-101 | the capture's comma is its decimal point: "30,50" reads 30.5 |
| ImportParser.ReadPriceThousands | src/components/ImportDataSheet.tsx:100-101 | the capture's dot is a thousands separator: "1.250,50" reads 1250.5 |
| ImportParser.PriceAfter | src/components/ImportDataSheet.tsx:95-101 | a read price is non-negative; there is none when the pattern does not match; otherwise it is the number read from the capture |
| ImportParser.PriceAfterWhole | src/components/ImportDataSheet.tsx:95-101 | the price after the keyword is the whole number written after its first `R$` |
| ImportParser.PriceAfterComma | src/components/ImportDataSheet.tsx:95-101 | with a decimal comma, the price is the whole part plus the fraction written after the first `R$` |
| ImportParser.PriceAfterThousands | src/components/ImportDataSheet.tsx:95-101 | with a thousands dot and a decimal comma, the price is the number with the dot dropped |
| ImportParser.EntryAfterKeyword | src/components/ImportDataSheet.tsx:94-110 | a record has the chosen method, the trimmed non-empty name before the keyword, the price read after the keyword and the given date formatted; the line is skipped exactly when the name is empty or no price is read; a date failure only when the date did not resolve |
| ImportParser.ParseEntry | src/components/ImportDataSheet.tsx:68-110 | a record's method is the keyword chosen in the trimmed rest of the line; a date failure only when the token does not name a calendar date |
| ImportParser.ParseLine | src/components/ImportDataSheet.tsx:65-69 | a line yields a record or a failure only when it is at least ten long once trimmed and starts with a date token |
| ImportParser.ParsedDateIsTokenDate | src/components/ImportDataSheet.tsx:71-72 | a record's date is the `yyyy-MM-dd` form of the token's date, and parses back to it |
| ImportParser.Outcomes | src/components/ImportDataSheet.tsx:64 | every line gets exactly one outcome |
| ImportParser.Collect | src/components/ImportDataSheet.tsx:103-110 | there are never more records than outcomes |
| ImportParser.ParseAll | src/components/ImportDataSheet.tsx:64-111 | there are never more records than lines |
| ImportParser.AfterHeader | src/components/ImportDataSheet.tsx:62-111 | only lines after the header are read, so there are fewer records than lines from the header on; no header means no records |
| ImportParser.ParseServices | src/components/ImportDataSheet.tsx:53-114 | the loop with its `continue`s computes `ParseReport` |
| ImportParser.ParseLinesAfter | src/components/ImportDataSheet.tsx:64-111 | the index loop from the line after the header computes `AfterHeader` |
| ImportParser.Continue | src/components/ImportDataSheet.tsx:64-111 | what the loop still gives from a line on: at least the records already read and at most one more per remaining line |
| ImportParser.LoopStart | src/components/ImportDataSheet.tsx:62-64 | the loop, started after the header with no records, gives what the import gives |
| ImportParser.ContinueIsRun | src/components/ImportDataSheet.tsx:64-111 | going on from any line with the records read up to it is the same as reading all the lines at once |
| ImportParser.RunStep | src/components/ImportDataSheet.tsx:64-110 | one more line leaves the records alone when skipped, ends the run when its date fails to format, and otherwise appends its record |
| ImportParser.CollectSnoc | src/components/ImportDataSheet.tsx:103-110 | one more outcome keeps a failure, and otherwise skips, fails or appends |
| ImportParser.RunErrorPersists | src/components/ImportDataSheet.tsx:106 | a run that has failed by some line has failed at the end |
| ImportParser.RunIsAfterHeader | src/components/ImportDataSheet.tsx:62-64 | the run over every line after the header is what the import gives |
| ImportParser.FailureEndsParse | src/components/ImportDataSheet.tsx:103-106 | a line whose date fails to format ends the whole import with the error |
| ImportParser.OutcomesAppend | src/components/ImportDataSheet.tsx:64 | lines are parsed independently of one another |
| ImportParser.CollectErrorPersists | src/components/ImportDataSheet.tsx:106 | once a date fails to format, the whole parse fails whatever follows |
| ImportParser.CollectAppend | src/components/ImportDataSheet.tsx:105 | records are pushed in the order of their lines |
| ImportParser.ParseAllAppend | src/components/ImportDataSheet.tsx:64-111 | the records of two blocks of lines are the first block's records followed by the second's |
| ImportParser.CollectOne | src/components/ImportDataSheet.tsx:64-111 | a skipped line adds nothing, a failed date fails, a record is pushed |
| ImportParser.ParseOneLine | src/components/ImportDataSheet.tsx:64-111 | a single line after the header gives nothing, a failure or its one record, as the line parser says |
| ImportParser.NoHeaderNoRecords | src/components/ImportDataSheet.tsx:62 | a text with no header line gives no records |
| ImportExample.OccursChars | src/components/ImportDataSheet.tsx:80-81 | every character of an occurrence of a keyword matches the keyword |
| ImportExample.LineShape | src/components/ImportDataSheet.tsx:64-74 | the example line is its date token, a space and the rest, with the pieces' lengths |
| ImportExample.LineTrimmed | src/components/ImportDataSheet.tsx:65-66 | the example line is already trimmed, starts with a date token and is long enough |
| ImportExample.RestTrimmed | src/components/ImportDataSheet.tsx:74 | the rest after the token, trimmed, is name, keyword and price text |
| ImportExample.RestPieces | src/components/ImportDataSheet.tsx:94-95 | the rest splits at index 13 into the name with its space and the text from the keyword on |
| ImportExample.AfterKeywordNoO | src/components/ImportDataSheet.tsx:80-81 | no `o`, the cash keyword's last letter, follows the keyword, so the keyword cannot occur again |
| ImportExample.RestMethod | src/components/ImportDataSheet.tsx:80-92 | on the example, "dinheiro" is chosen at index 13, the only place it occurs, and "pagamento online" does not occur |
| ImportExample.RestName | src/components/ImportDataSheet.tsx:94 | the name before the keyword, trimmed, is "Corte padrão" |
| ImportExample.PartShape | src/components/ImportDataSheet.tsx:95-97 | the text from the keyword on is trimmed, has no `$` before its `R$`, and is followed by "30,00" |
| ImportExample.AmountValue | src/components/ImportDataSheet.tsx:100-101 | "30" with the fraction "00" is 30 |
| ImportExample.RestPrice | src/components/ImportDataSheet.tsx:95-101 | the price read after the keyword is 30 |
| ImportExample.TokenDate | src/components/ImportDataSheet.tsx:68-72 | the token `10/06/24` reads as 10 June 2024 when the year 24 resolves to 2024 |
| ImportExample.Written | src/components/ImportDataSheet.tsx:106 | 10 June 2024 is written "2024-06-10" |
| ImportExample.LineParses | src/components/ImportDataSheet.tsx:64-110 | the line `10/06/24 Corte padrão dinheiro R$30,00` becomes the record named "Corte padrão", paid in cash, price 30, dated "2024-06-10" |
| ImportExample.RestText | src/components/ImportDataSheet.tsx:74 | the rest of the example line as assembled from its pieces is `Corte padrão dinheiro R$30,00` |
| ImportExample.LineText | src/components/ImportDataSheet.tsx:64-110 | the example line as assembled from its pieces is the text a report prints |
| ImportParser.ImportSheet.constructor | src/components/ImportDataSheet.tsx:118-124 | the sheet starts with empty text, no error, nothing parsed and no confirmation |
| ImportParser.ImportSheet.Submit | src/components/ImportDataSheet.tsx:126-134 | text shorter than ten is refused with a form error; a parse that finds nothing sets a form error and keeps the state; a parse that finds records keeps them all and asks for confirmation; a failed parse changes nothing |
| ImportParser.ImportSheet.ConfirmImport | src/components/ImportDataSheet.tsx:136-141 | confirming hands over the whole parsed list at once, non-empty whenever confirmation was asked, then closes and resets the form |
| ImportParser.ImportSheet.SetOpen | src/components/ImportDataSheet.tsx:143-150 | closing clears the text, the error, the parsed list and the confirmation; opening keeps them |
| Summaries.Tally | src/app/analytics/page.tsx:73-82 | one step of the reduce adds the price to the total and to the cash part for `dinheiro`, to the online part otherwise, and counts one |
| Summaries.Summarize | src/app/analytics/page.tsx:71-85 | the reduce loop computes the fold `TotalsOf` |
| Summaries.FoldTotalsSplit | src/app/analytics/page.tsx:71-85 | folding adds the sum of all prices to the total, the cash services' prices to the cash part, the others' to the online part, and the number of services to the count |
| Summaries.PriceSumSplits | src/app/analytics/page.tsx:75-79 | every price is counted either as cash or as online |
| Summaries.FilterSplits | src/app/analytics/page.tsx:75-79 | the first service goes to exactly one of the two parts |
| Summaries.SummaryBalanced | src/app/analytics/page.tsx:71-85 | the total is the cash part plus the online part, the count is the number of services, and every method other than `dinheiro` is counted online |
| Summaries.PriceSumAppend | src/app/analytics/page.tsx:72 | summing prices distributes over concatenation |
| Analytics.Weekday | src/app/analytics/page.tsx:59 | a weekday is one of seven, Sunday being 0 |
| Analytics.NextWeekday | src/app/analytics/page.tsx:59 | the next day's weekday is the following one |
| Analytics.WeekStartDay | src/app/analytics/page.tsx:59 | `startOfWeek` in pt-BR is the Sunday on or at most six days before the date |
| Analytics.ResolveRange | src/app/analytics/page.tsx:44-62 | "15" gives from 14 days before now, at now's time of day, up to now; "30" gives from the month's first midnight to its last millisecond; anything else gives Sunday midnight to Saturday's last millisecond of the week; a valid now lies inside the interval |
| Analytics.Kept | src/app/analytics/page.tsx:64-66 | every kept service lies in the interval |
| Analytics.KeptExactly | src/app/analytics/page.tsx:64-66 | a service is kept exactly when it is stored and its parsed date lies in the interval, as often as it is stored, in store order |
| Analytics.LoopRounds | src/app/analytics/page.tsx:90 | the chart loop runs once for each day whose start-time instant is not after the end |
| Analytics.ChartDays | src/app/analytics/page.tsx:90-93 | the chart's days are the consecutive day numbers from the start day, one per loop round |
| Analytics.DaysFrom | src/app/analytics/page.tsx:90 | the k-th day of the loop is k days after the first |
| Analytics.ChartDaysConsecutive | src/app/analytics/page.tsx:90-93 | the first day is the start day, each next is the day after, and no day appears twice |
| Analytics.BucketSnoc | src/app/analytics/page.tsx:95-101 | one more service bumps the bucket of its own day only |
| Analytics.Entries | src/app/analytics/page.tsx:103-106 | there is one entry per chart day, built from that day's bucket |
| Analytics.ByLabelIsTotalPreorder | src/app/analytics/page.tsx:107 | ordering by label is a total preorder |
| Analytics.ChartOf | src/app/analytics/page.tsx:87-108 | the chart holds exactly the entries of the chart days, one per day, sorted by their `dd/MM` label |
| Analytics.ChartData | src/app/analytics/page.tsx:87-108 | the zero-filling loop, the bucketing loop and the sort compute `ChartOf` |
| Analytics.ReadEntries | src/app/analytics/page.tsx:103-106 | one entry is read for each chart day |
| Analytics.EntriesFromBuckets | src/app/analytics/page.tsx:103-106 | reading the filled dictionary gives the entries of the chart days |
| Analytics.ZeroBuckets | src/app/analytics/page.tsx:90-93 | the dictionary has exactly the chart days as keys, each with a zero bucket |
| Analytics.FillBuckets | src/app/analytics/page.tsx:95-101 | after the loop, every day's bucket holds the total and count of that day's services, and the keys are unchanged |
| Analytics.BucketStep | src/app/analytics/page.tsx:95-101 | one round of the loop bumps only the bucket of the service's day |
| Analytics.ChartZeroFilled | src/app/analytics/page.tsx:90-93 | with no services every entry is zero |
| Analytics.InsertKeepsSums | src/app/analytics/page.tsx:107 | inserting an entry adds its total and count to the chart's sums |
| Analytics.SortKeepsSums | src/app/analytics/page.tsx:107 | sorting keeps the chart's total and count |
| Analytics.EmptyEntries | src/app/analytics/page.tsx:90-93 | zero buckets sum to zero |
| Analytics.EntriesSnoc | src/app/analytics/page.tsx:95-101 | one more service adds its price and 1 to the chart's sums when its day is charted, and nothing otherwise |
| Analytics.BucketsSumToSummary | src/app/analytics/page.tsx:95-101 | when every service's day is charted, the buckets sum to the services' total and count |
| Analytics.KeptDayIsCharted | src/app/analytics/page.tsx:64-66 | every kept service's day is one of the chart days |
| Analytics.ChartMatchesSummary | src/app/analytics/page.tsx:71-108 | the chart's total and count equal the summary's total and count, on every range |
| Analytics.LabelOrderNotChronological | src/app/analytics/page.tsx:107 | a range over 31 May and 1 June puts "01/06" before "31/05" |
| Analytics.ChronologicalChart | src/app/analytics/page.tsx:103-107 | the corrected chart holds the same entries as the label-sorted one, in day order |
| Analytics.ChronologicalChartInDayOrder | src/app/analytics/page.tsx:90-107 | the corrected chart has one entry per day, each for the day after the previous entry's |
| Analytics.FifteenDropsFirstDay | src/app/analytics/page.tsx:50-51 | on "15", a service dated 14 days ago is left out of the kept services while its day still has a chart entry, whenever now is past midnight |
| Analytics.ResolveRangeFromMidnight | src/app/analytics/page.tsx:50-51 | the corrected "15" range starts at midnight 14 days ago; the other ranges are unchanged |
| Analytics.MidnightStartKeptIffCharted | src/app/analytics/page.tsx:64-93 | on an interval starting at a midnight, a service is kept exactly when its day is one the chart loop visits |
| Analytics.KeptIffCharted | src/app/analytics/page.tsx:44-101 | with the corrected range, a service is kept exactly when its day has a chart entry |
| ServiceSheet.IsSelectedMeans | src/components/AddServiceSheet.tsx:139-141 | a service shows as selected exactly when its name is among the selected names |
| ServiceSheet.ToggleFlipsOnlyItsName | src/components/AddServiceSheet.tsx:129-136 | a click flips whether the clicked name is selected and leaves every other name as it was |
| ServiceSheet.NamesMember | src/components/AddServiceSheet.tsx:80 | a name is listed exactly when some selected service has it |
| ServiceSheet.ToggleKeepsNamesUnique | src/components/AddServiceSheet.tsx:130-135 | a click keeps the selected names distinct |
| ServiceSheet.ToggleTwiceRestores | src/components/AddServiceSheet.tsx:129-136 | clicking a service that is not selected twice restores the selection |
| ServiceSheet.ClicksKeepNamesUnique | src/components/AddServiceSheet.tsx:64 | any sequence of clicks from the empty selection leaves no two selected services with the same name |
| ServiceSheet.DerivedAfterAppend | src/components/AddServiceSheet.tsx:80-81 | appending a service appends ", " and its name to the derived name (just its name on an empty selection) and adds its price |
| ServiceSheet.DerivedPriceAppend | src/components/AddServiceSheet.tsx:81 | the derived price of two selections is the sum of theirs |
| ServiceSheet.DerivedPriceSplits | src/components/AddServiceSheet.tsx:132 | the price splits into the clicked name's part and the rest, so removing a name takes off exactly its price |
| ServiceSheet.SchemaMethod | src/components/AddServiceSheet.tsx:50-52 | the schema accepts exactly the two method literals, and reads each as its method |
| ServiceSheet.Submitted | src/components/AddServiceSheet.tsx:114-124 | data reaches `onSave` exactly when the schema accepts the form; it has the form's name, price and method, and its date parses back to the picked date |
| ServiceSheet.DefaultFormRefused | src/components/AddServiceSheet.tsx:69-74 | the default form, empty name and price 0, is refused |
| ServiceSheet.TypedNameErased | src/components/AddServiceSheet.tsx:191-194 | as written, a name typed in a new sheet is overwritten with the empty derived name, so the form cannot be submitted |
| ServiceSheet.Sheet.constructor | src/components/AddServiceSheet.tsx:64-75 | the sheet starts with nothing selected, an empty name, price 0, `dinheiro` and today's date |
| ServiceSheet.Sheet.Open | src/components/AddServiceSheet.tsx:78-102 | opening on a service fills the form from it and clears the selection; opening to create derives name and price from the selection, keeps the date and defaults the method to `dinheiro` |
| ServiceSheet.Sheet.Click | src/components/AddServiceSheet.tsx:105-137 | while editing a click changes nothing; otherwise it toggles the service and rederives name and price |
| ServiceSheet.Sheet.TypeName | src/components/AddServiceSheet.tsx:191-194 | typing a name sets it and clears the selection, and the name stays as typed |
| ServiceSheet.Sheet.TypePrice | src/components/AddServiceSheet.tsx:209-212 | typing a price sets it and clears the selection, and the price stays as typed |
| ServiceSheet.Sheet.ChooseMethod | src/components/AddServiceSheet.tsx:50-52 | choosing a method sets it and nothing else |
| ServiceSheet.Sheet.PickDate | src/components/AddServiceSheet.tsx:248-254 | a date the calendar allows, not after today nor before 1900, becomes the form's date |
| ServiceSheet.Sheet.Submit | src/components/AddServiceSheet.tsx:114-124 | submitting hands over `Submitted` of the form and clears the selection once the schema accepts |
| ServiceSheet.Sheet.Cancel | src/components/AddServiceSheet.tsx:328 | cancelling clears the selection |
| Settings.SaveKeepsExactly | src/app/settings/page.tsx:44-48 | saving keeps every entry with a non-blank name and a positive price, as often as it occurs, and no other entry, in order; saving again changes nothing |
| Settings.BlankEntryDropped | src/app/settings/page.tsx:35-37 | an added blank entry never survives a save |
| Settings.DropIndexRemovesOne | src/app/settings/page.tsx:39-42 | removing index i deletes only that entry and keeps the rest in order; an index outside the list changes nothing |
| Settings.PriceFromInput | src/app/settings/page.tsx:28 | a price becomes the number typed, or 0 when that is NaN or 0 |
| Settings.TypedPriceSurvivesSave | src/app/settings/page.tsx:28 | an entry with a typed price survives a save exactly when its name is not blank and the number is positive |
| Settings.SettingsEditor.constructor | src/app/settings/page.tsx:16 | the local list starts empty |
| Settings.SettingsEditor.Load | src/app/settings/page.tsx:18-23 | once the store is loaded, the local list is a copy of its catalogue |
| Settings.SettingsEditor.ChangeName | src/app/settings/page.tsx:25-33 | only entry `index` changes, and only its name, which becomes the string given |
| Settings.SettingsEditor.ChangePrice | src/app/settings/page.tsx:25-33 | only entry `index` changes, and only its price |
| Settings.SettingsEditor.AddNew | src/app/settings/page.tsx:35-37 | a blank entry is appended |
| Settings.SettingsEditor.Remove | src/app/settings/page.tsx:39-42 | entry `index` is removed, the rest keep their order |
| Settings.SettingsEditor.Save | src/app/settings/page.tsx:44-48 | the saved list is the filtered local list, and every saved entry is keepable |
| PlanSheet.Prefill | src/components/AddPlanSheet.tsx:58-72 | an edited plan prefills its name, price and number of cuts; otherwise the form resets to "", 0, 0 |
| PlanSheet.Submitted | src/components/AddPlanSheet.tsx:37-41 | data reaches `onSave` exactly when the name has at least two characters, the price is at least 0.01 and the number of cuts is a whole number of at least 1; it carries just the name, price and number of cuts |
| PlanSheet.BlankRefused | src/components/AddPlanSheet.tsx:51-55 | the blank form never validates |
| PlanSheet.PrefillRoundTrip | src/components/AddPlanSheet.tsx:58-76 | a valid plan opened for editing and submitted untouched hands back its own name, price and number of cuts |
| PlanSheet.SubmittedPlanStartsFull | src/hooks/use-client-plans.ts:77 | a plan created from submitted data is in range, with every cut available and at least one |
| PlansPage.Merge | src/app/plans/page.tsx:43 | the merge takes the form's name, price and number of cuts, and carries the remaining cuts over |
| PlansPage.MergeInRange | src/app/plans/page.tsx:43 | an edited plan stays in range exactly when its remaining cuts fit under the new number of cuts |
| PlansPage.EditBreaksRange | src/app/plans/page.tsx:43 | a plan of 5 cuts with 3 left, edited to 2 cuts, ends with 3 of 2 left |
| PlansPage.OneButtonEnabled | src/app/plans/page.tsx:123-129 | on a plan in range exactly one of "Usar Corte" and "Renovar" is enabled, and "Renovar" only once no cut is left |
| PlansPage.EnabledCutNeverWarns | src/app/plans/page.tsx:123 | with unique ids an enabled "Usar Corte" never warns and takes exactly one cut |
| PlansPage.RenewRestoresCredit | src/app/plans/page.tsx:129 | an enabled "Renovar" restores all cuts and leaves the plan in range |
| PlansPage.PlansPage.constructor | src/app/plans/page.tsx:28-29 | the sheet starts closed with no plan to edit |
| PlansPage.PlansPage.AddClick | src/app/plans/page.tsx:31-34 | the sheet opens with no plan to edit |
| PlansPage.PlansPage.EditClick | src/app/plans/page.tsx:36-39 | the sheet opens on the plan |
| PlansPage.PlansPage.SavePlan | src/app/plans/page.tsx:41-48 | an edit updates the plan under its id with the merged fields; otherwise the data is added as a new plan; the sheet closes |
| HomePage.TodayServicesExactly | src/app/page.tsx:44-46 | exactly the services dated today are shown, as often as they are stored, in store order |
| HomePage.DailySummaryBalanced | src/app/page.tsx:48-61 | the day's total is its cash part plus its online part, every method other than `dinheiro` being online |
| HomePage.ActionsDisabledMeans | src/app/page.tsx:210 | clear, share and PDF are disabled exactly when no stored service is dated today, and an enabled clear removes at least one service |
| HomePage.ClearedDayIsEmpty | src/app/page.tsx:210 | after clearing, nothing is shown and the actions are disabled |
| HomePage.RowsInsideMargins | src/app/page.tsx:146-154 | every PDF row is drawn at a y between 20 and 280 |
| HomePage.RowStepMatches | src/app/page.tsx:146-154 | one turn of the loop: past 280 a page is added and the row goes to 20, otherwise it goes at the cursor |
| HomePage.LayOutRows | src/app/page.tsx:136-155 | the loop draws row i at `RowY(i)`, inside the margins, and adds `PagesAdded` pages |
| HomePage.Home.constructor | src/app/page.tsx:39-42 | the sheet starts closed with no service to edit |
| HomePage.Home.AddClick | src/app/page.tsx:63-66 | the sheet opens with no service to edit |
| HomePage.Home.EditClick | src/app/page.tsx:68-71 | the sheet opens on the service |
| HomePage.Home.SaveService | src/app/page.tsx:73-80 | an edit updates the service under its id; otherwise the data is added under a fresh id; the sheet closes |

## Left out

- Storage: localStorage, JSON and the console are reduced to a `StorageEntry` (absent, unparseable or a list) and a `writeOk` flag. Toasts are returned notices.
- React scheduling: the model orders effects and setters as sequential steps. The exception is the finding about typing in the service sheet, which models the re-run effect.
- Time and ids: "now", "today" and fresh ids are parameters. The `new Date().toISOString() + Math.random()` id scheme is not modelled; lemmas that need a fresh id require it to be absent from the list.
- Time zones: `new Date("yyyy-MM-dd")` parses as UTC while `toDateString` and date-fns work in local time, so "today" can be off by a day. The model compares parsed calendar dates with a given today.
- Date parsing: `new Date`, `parseISO` and `parse` are modelled only on `yyyy-MM-dd` strings. Any other string is unparseable, and an unparseable date sorts as oldest, where JavaScript's comparator gives NaN.
- Import years: date-fns' resolution of a two-digit year in `dd/MM/yy` is the parameter `resolveYear`.
- Invalid import dates: a token such as `31/02/24` gives an Invalid Date, which is truthy, so `format` throws. This is modelled as the `Err(InvalidTimeValue)` result of the whole parse.
- ImportParser.ParsedDateIsTokenDate: the round trip back to the token's date is stated for years up to 9999, because `yyyy` has no fixed width beyond that.
- Collation: `localeCompare` is replaced by code-point order on names.
- Lower-casing: `toLowerCase` is modelled for ASCII and Latin-1 letters only. This is exact for the two header markers.
- Arithmetic: prices are exact reals, not IEEE doubles, so `total = dinheiro + online` holds exactly and the order of additions does not matter.
- Analytics.ChartData: the chart dictionary is keyed by calendar date rather than by its `yyyy-MM-dd` string; the two are in one-to-one correspondence.
- Week start: the pt-BR locale's week starts on Sunday, which is how `startOfWeek` is modelled.
- Settings.PriceFromInput: the text-to-number step of `Number(value)` is a parameter (`None` for NaN).
- ServiceSheet.Sheet.TypePrice: `valueAsNumber` is a parameter (`None` for NaN).
- The catalogue store: `predefinedServices` and `savePredefinedServices` are read by the settings page and the service sheet, but `use-services.ts` does not return them. The model keeps only the callers' list logic.
- Export and sharing: the PDF drawing, `navigator.share`, the WhatsApp text and `toFixed` formatting are not modelled, apart from the rows' y positions.
- HomePage.DailySummary: it reuses the analytics fold, which also counts services; the home page's own reduce has no count, and the model's count is not used there.
- Rendering: ServiceList, Header, Summary, the layout and the icon have no behaviour to model.

## Findings

| source | as written | input that shows it | evidently intended | confidence | as-written member | corrected member |
|---|---|---|---|---|---|---|
| src/app/analytics/page.tsx:107 | chart entries are sorted by their `dd/MM` label string | a range from 31 May to 1 June charts "01/06" before "31/05" | entries in day order | not executed | Analytics.LabelOrderNotChronological | Analytics.ChronologicalChart |
| src/app/analytics/page.tsx:50-51 | the "15" range starts 14 days ago at now's time of day, while services are dated at midnight | now 2024-06-15 at 10:00, and a service dated 2024-06-01: the day has a chart entry but the service is not kept | the range starts at midnight of its first day | not executed | Analytics.FifteenDropsFirstDay | Analytics.ResolveRangeFromMidnight |
| src/components/AddServiceSheet.tsx:191-194 | typing a name in a new sheet calls `setSelectedServices([])` with a new array, which re-runs the derive effect and writes the empty derived name over it | open a new sheet with nothing selected and type "Hidratação": the name becomes "" and the form is refused | a typed name or price stays as typed | not executed | ServiceSheet.TypedNameErased | ServiceSheet.Sheet.TypeName |
