# Expense tracker: classification pipeline in Dafny

This project models the core of a personal expense tracker. The tracker reads
bank statements and lower-cases the text fields of their records. It then
files every transaction into exactly one spending category, or returns it as
ungrouped. Finally it adds up the categories per month and into an
earned/spent summary. Amounts are integer cents throughout.

The modules follow the program's files:

- `Categories` (categories.dfy) models `Categories.py`:
  - the flow direction of each category;
  - the rule lists (`RuleLists`, rule_lists.dfy);
  - the `Category` class, whose list and running total are updated in place.
  - `Matching` (matching.dfy) holds `match_receiver_and_date` and the `any(...)` over a rule list.
  - `Patterns` (patterns.dfy) is the regular-expression subset those rules use: literal text, `^`, `$`, `(?:\s|$)`, `.`, `*`, `+` and optional groups.
- `Grouping` (grouped_transactions.dfy) models `GroupedTransactions.py`. Its partition loop is a method proved against a specification function.
- `ReportParsers` (report_parsers.dfy) models `ReportParsers.py`:
  - `parse_float`;
  - `strptime("%Y%m%d")` as CPython's `_strptime` matches it;
  - one statement line;
  - the line loop as a method.
- `TransactionTransformers` (transaction_transformers.dfy) models `lowercase_str_fields`.
- `ReportAggregation` (report_aggregator.dfy) models `ReportAggregator.py`: routing files to the three bank buckets, and concatenating the parser's output per bucket, where the first file that fails to parse fails the whole bucket.
- `Visualizer` (expense_visualizer.dfy) models two parts of `ExpenseVisualizer.py`:
  - the monthly tables of `_compute_monthly_totals`;
  - the per-month sums of `plot_monthly_totals`.
  - Both are methods over nested insertion-ordered dictionaries (`Dicts`, dicts.dfy).
- `Summary` (summary.dfy) models the earned/spent summary loop of `main.py`.
- `TelegramFrontend` (telegram_frontend.dfy) models the upload filter `_is_supported_text_file`.
- Shared definitions live in their own modules:
  - `Transactions`: the record, dates, Python tuple order and the sum of amounts.
  - `Ordering`: lexicographic order, insertion sort, and sortedness and permutation facts.
  - `Strings`: ASCII lower-casing, `split`, `join`, `strip` and `in`.
  - `Digits`: decimal numerals.
  - `Sequences` and `Wrappers`: sequence prefixes, and the `Option`/`Result` types.

## Model

| member | source | states |
|---|---|---|
| Matching.MatchReceiverAndDate | Categories.py:13-23 | With no date constraint, the result is the pattern search on `receiver`. With a date, it is the search and date equality. With a two-element tuple, it is the search and `start <= date <= end`, both ends included. A tuple of another length fails the assertion, and any other type raises `ValueError`. |
| Matching.AnyMatch | Categories.py:67 | `any(...)` over a rule list, stopping at the first rule that matches or raises. `AnyMatchMeaning` states its meaning. |
| Matching.IsMatchedBy | Categories.py:59-67 | A category's `is_matched`: never true for a matcher with no rules, otherwise `any(...)` over its rule list. `MatcherVerdict` states its meaning. |
| Matching.AnyMatchMeaning | Categories.py:60-67 | `any(...)` over a rule list is true only if some rule is true. A raise carries the error of some rule that raises. If no rule raises, it is true exactly when some rule matches. |
| Matching.AnyMatchWellFormed | Categories.py:104-127 | A rule list whose constraints are all `None`, a date or a pair never raises. It is then true iff some rule's pattern is found in the receiver and the date lies in that rule's window. |
| Patterns.ExactMeaning | Categories.py:65 | `^w$` matches exactly `w` and `w` followed by one final newline. |
| Patterns.PrefixMeaning | Categories.py:61 | `^w` matches exactly the receivers that start with `w`. |
| Patterns.PrefixSpaceMeaning | Categories.py:122 | `^w\s` matches exactly the receivers that start with `w` followed by a whitespace character. |
| Patterns.PrefixWordMeaning | Categories.py:63 | `^w(?:\s|$)` matches exactly the receivers that start with `w` followed by whitespace or their end. |
| Patterns.WithinMeaning | Categories.py:119 | An unanchored literal matches exactly when it occurs somewhere in the receiver. |
| RuleLists.Plains | Categories.py:60-66 | A list of plain patterns becomes one undated rule per pattern, in order. |
| RuleLists.OnDates | Categories.py:122 | Pattern/date pairs become one rule per pair, restricted to that date. |
| RuleLists.GroceriesRules | Categories.py:60-66 | Groceries' rule list never raises, so its `is_matched` never raises. |
| RuleLists.TransportRules | Categories.py:77-84 | Transport's rule list never raises. |
| RuleLists.InsuranceRules | Categories.py:93-99 | Insurance's rule list never raises. |
| RuleLists.HouseholdGoodsRules | Categories.py:108-127 | HouseholdGoods' rule list, dated rules included, never raises. |
| RuleLists.RestaurantsRules | Categories.py:136-163 | Restaurants' rule list never raises. |
| RuleLists.GinaRules | Categories.py:172-179 | Gina's rule list never raises. |
| RuleLists.HealthRules | Categories.py:188-199 | Health's rule list never raises. |
| RuleLists.ClothesRules | Categories.py:208-218 | Clothes' rule list never raises. |
| RuleLists.ChildRules | Categories.py:227-237 | Child's rule list never raises. |
| RuleLists.TaxesRules | Categories.py:256-262 | Taxes' rule list never raises. |
| RuleLists.DocumentsRules | Categories.py:271-278 | Documents' rule list never raises. |
| RuleLists.VVERules | Categories.py:287-292 | VVE's rule list never raises. |
| RuleLists.BillsRules | Categories.py:301-309 | Bills' rule list never raises. |
| RuleLists.BanksRules | Categories.py:318-324 | Banks' rule list never raises. |
| RuleLists.InternalTransfersRules | Categories.py:333-350 | InternalTransfers' rule list never raises. |
| RuleLists.ApartmentRules | Categories.py:359-364 | Apartment's rule list never raises. |
| RuleLists.IncomeRules | Categories.py:373-377 | Income's rule list never raises. |
| RuleLists.ServicesRules | Categories.py:386-399 | Services' rule list never raises. |
| RuleLists.OthersRules | Categories.py:408-441 | Others' rule list, its dated range rule included, never raises. |
| Categories.FlowOf | Categories.py:352-380 | Exactly Income earns, exactly InternalTransfers is neutral, and every other category is an expense. |
| Categories.MatcherVerdict | Categories.py:59-67 | A category with well-formed rules never raises: its verdict is whether some rule matches. |
| Categories.EntertainmentMatchesNothing | Categories.py:246-247 | Entertainment matches no transaction. |
| Categories.GroceriesMatchAlbertHeijn | Categories.py:63 | A receiver starting with `albert heijn`, followed by whitespace or its end, is a grocery purchase. |
| Categories.AhToGoTooLong | Categories.py:64 | The `ah to go` rule cannot match a receiver shorter than eight characters. |
| Categories.GammaIsNotGroceries | CategoriesTest.py:27-30 | `gamma` is not a grocery purchase. |
| Categories.GammaIsHouseholdGoods | Categories.py:113 | `gamma` is a household-goods purchase. |
| Categories.KlarnaOnlyOnItsDay | Categories.py:122 | `klarna bank ab` counts as household goods on 2025-01-15 and on no other day. |
| Categories.AlbertOnlyDuringTrip | Categories.py:413 | `albert` counts as Others from 2025-03-08 to 2025-03-09, both ends included, and on no other day. |
| Categories.Category.constructor | Categories.py:27-30 | A new category keeps its name, rules and flow, and starts with no transactions and total 0, so its total is the sum of its list. |
| Categories.Category.Of | Categories.py:55-70 | Each concrete category, e.g. `Groceries()`, has its own name, its own rule list and its flow direction, and starts empty. |
| Categories.Category.AddTransaction | Categories.py:35-37 | The transaction is appended at the end and its amount added to the total. The total stays the sum of the list. |
| Categories.Category.GetTotal | Categories.py:39-40 | Whenever the total matches the list, the returned total is the sum of the held amounts. |
| Categories.Category.GetTransactions | Categories.py:42-44 | The stored list is replaced by its sorted rearrangement, which is returned. It is sorted in tuple order and is a permutation of the old list. The total is unchanged and still matches. |
| Transactions.TxLessStrictTotal | Categories.py:43 | Tuple order on transactions is a strict total order, so the in-place sort has exactly one result. |
| Transactions.SortTxsFacts | Categories.py:43 | The sorted list is in order, is a permutation, keeps the sum, and is unchanged when sorted again. |
| Transactions.SumAppend | Categories.py:37 | Appending one transaction grows the sum by exactly its amount. |
| Ordering.SortPermutes | Categories.py:43 | Sorting keeps the multiset of elements. |
| Ordering.SortSorted | Categories.py:43 | Under a strict total order, sorting gives a list in order. |
| Ordering.SortOfSorted | Categories.py:43 | A list already in order is left as it is. |
| Strings.Lower | TransactionTransformers.py:11-13 | Lower-casing keeps the length and maps each character to its lower-case form, so no capital is left. |
| Strings.LowerIdempotent | TransactionTransformers.py:11-13 | Lower-casing twice is lower-casing once. |
| Strings.StrLessStrictTotal | Categories.py:43 | String comparison is a strict total order. |
| Strings.Split | ReportParsers.py:22 | Every field of `split()` is non-empty and free of whitespace. `SplitSpaced` states which fields it returns for any spacing. |
| Strings.SplitJoin | ReportParsers.py:34 | Splitting words joined by single spaces gives back the words. |
| Strings.TrimStartSkipsSpace | ReportParsers.py:22 | Whitespace in front of a text is dropped by `strip()`'s left half. |
| Strings.SplitSkipsSpace | ReportParsers.py:22 | Whitespace in front of a text does not change its `split()`. |
| Strings.SplitSpaced | ReportParsers.py:22 | Fields with any runs of whitespace before, between and after them, including tabs and multiple spaces, split into exactly those fields, in order. |
| Grouping.Verdicts | GroupedTransactions.py:14 | There is one verdict per category, in category order, and each is that category's `is_matched`. |
| Grouping.Route | GroupedTransactions.py:14-21 | What one transaction does: left ungrouped, filed into its single taker, an ambiguity, or a raised error. `RouteMeaning` states its meaning. |
| Grouping.MatchedMeaning | GroupedTransactions.py:14 | The comprehension of matching categories succeeds iff no category raises. It then lists every matching position once, in increasing order. Otherwise it raises the first raising category's error. |
| Grouping.RouteMeaning | GroupedTransactions.py:14-21 | With no raise, a transaction with no taker stays unfiled and exactly one taker files it there. Two or more takers are an ambiguity that names them in order. A raise is passed on. |
| Grouping.FileInto | GroupedTransactions.py:17-18 | The category a transaction is filed into occurs once in the list, so no other entry changes with it. |
| Grouping.FiledIff | GroupedTransactions.py:17-18 | A transaction is filed into category `j` exactly when no category raises and `j` is its only taker. |
| Grouping.AmbiguityNamesEveryTaker | GroupedTransactions.py:19-21 | The ambiguity error names every matching category and only matching ones. Its message says "matched multiple categories" and contains each name. |
| Grouping.AmbiguityMessageNames | GroupedTransactions.py:20-21 | The message text contains "matched multiple categories" and every name it is given. |
| Grouping.FailureSticks | GroupedTransactions.py:13-21 | Once a prefix of the input raises, the whole call raises that same error. |
| Grouping.Grouped | GroupedTransactions.py:11-22 | The ungrouped list, or the first raise, of the whole loop. `GroupedMeaning` states its meaning. |
| Grouping.GroupedMeaning | GroupedTransactions.py:11-22 | The call returns normally iff no transaction raises, and then returns the unmatched transactions in input order. A raise carries the error of a transaction whose predecessors were all routed. |
| Grouping.EveryTransactionLandsOnce | GroupedTransactions.py:13-22 | On success, the ungrouped list and the categories together receive exactly as many transactions as were offered. |
| Grouping.EveryTransactionLandsSomewhere | GroupedTransactions.py:15-18 | A transaction without a taker is in the ungrouped list, and a filed one is in the category that took it. |
| Grouping.MixedSignsAddUp | GroupedTransactionsTest.py:81-88 | Two Albert Heijn payments of -12.34 and 8.00 are both filed into Groceries and sum to -4.34. |
| Grouping.GroupedTransactions.constructor | GroupedTransactions.py:8-9 | The categories are kept in argument order, unsorted; `get_categories` returns them. |
| Grouping.GroupedTransactions.GetCategories | GroupedTransactions.py:24-25 | The categories in argument order. The constructor's contract fixes what they are. |
| Grouping.GroupedTransactions.ProgressKeepsTotals | GroupedTransactions.py:18 | Filing through `add_transaction` keeps every category's total equal to the sum of its list. |
| Grouping.GroupedTransactions.AddTransactions | GroupedTransactions.py:11-22 | The result is the unmatched transactions, or the first raise. Each category now holds its old list followed by the transactions routed to it, in input order. The transactions before a raising one stay filed, with no rollback. |
| Grouping.GroupedTransactions.FileOne | GroupedTransactions.py:14-21 | One transaction is appended to its single matching category, with its amount added to the total. With no match or an error, nothing changes. |
| ReportParsers.ReplaceCommas | ReportParsers.py:16 | Each comma becomes a dot and every other character is kept. |
| ReportParsers.ParseFloat | ReportParsers.py:15-16 | `float(value.replace(',', '.'))` in cents. `CommaIsDecimalPoint` and `ParseFloatFormatCents` state its meaning. |
| ReportParsers.CommaIsDecimalPoint | ReportParsers.py:15-16 | Replacing commas first does not change the parse. |
| ReportParsers.ParseFloatComma | ReportParsersTest.py:27 | "6,30" is 630 cents. |
| ReportParsers.ParseFloatNegative | ReportParsers.py:15-16 | "-6,3" is -630 cents. |
| ReportParsers.ParseFloatRefused | ReportParsers.py:15-16 | Sub-cent text and empty text are refused. |
| ReportParsers.ParseUnsignedAmount | ReportParsers.py:16 | Whole units, a dot and two digits are read as `100 * units + cents`. |
| ReportParsers.ParseDecimalSigned | ReportParsers.py:16 | A leading `-` negates the unsigned value, and no sign keeps it. |
| ReportParsers.ParseUnsignedCents | ReportParsers.py:16 | An unsigned amount written as units, a dot and two digits is read back as the same cents. |
| ReportParsers.ParseFloatFormatCents | ReportParsers.py:15-16 | Every amount as the bank writes it (sign, units, comma, two digits) is read back as the same number of cents. |
| ReportParsers.MonthAlternatives | ReportParsers.py:28 | Every month candidate `%m` can match lies in 1..12 and consumes at least one character. |
| ReportParsers.DayAlternatives | ReportParsers.py:28 | Every day candidate `%d` can match lies in 1..31 and consumes at least one character. |
| ReportParsers.ParseYmd | ReportParsers.py:28 | A parsed date is always a valid calendar date. |
| ReportParsers.ParseYmdFormat | ReportParsers.py:28 | Every valid date written as `YYYYMMDD` is read back unchanged. |
| ReportParsers.ParseYmdDayPastMonthEnd | ReportParsers.py:28 | "20250230" is refused. |
| ReportParsers.ParseYmdYearZero | ReportParsers.py:28 | "00000101" is refused. |
| ReportParsers.ParseYmdTrailing | ReportParsers.py:28 | A digit left over after a complete date is refused. |
| ReportParsers.ParseYmdUnpadded | ReportParsers.py:28 | The unpadded "2025113" is read greedily as 3 November 2025. |
| ReportParsers.ParseYmdDashes | ReportParsersTest.py:37-44 | "2025-01-03" is refused. |
| ReportParsers.ParseLine | ReportParsers.py:22-43 | One line: the row error, the date error, a number error, or the transaction built from its fields. `ParseLineSucceeds`, `ParseLineOf`, `ShortLineRejected` and `BadDateRejected` state its meaning. |
| ReportParsers.ParseLineSucceeds | ReportParsers.py:22-33 | A line parses exactly when it has at least eight fields, its third is a date and its fourth, fifth and seventh are numbers. |
| ReportParsers.ParseLineSameFields | ReportParsers.py:22-34 | Two lines with the same fields parse alike. The description is the words from the eighth field on, joined by single spaces. |
| ReportParsers.ParseLineSpaced | ReportParsers.py:22-34 | However the fields are spaced, with tabs or runs of spaces, the line parses as the fields joined by single spaces do. The description collapses every whitespace run to one space. |
| ReportParsers.ShortLineRejected | ReportParsers.py:22-24 | A line with fewer than eight fields, a blank one included, raises "Invalid transaction row" with the stripped line. |
| ReportParsers.BadDateRejected | ReportParsers.py:27-30 | A row whose third field is not a date raises "Invalid date format" with the stripped line. |
| ReportParsers.ParseLineOf | ReportParsers.py:25-43 | Fields 0 and 1 become the account and currency, and field 2 the date. Fields 3 and 4 become the balances and field 6 the amount. Field 5 is ignored. Fields 7 onward are joined by single spaces. |
| ReportParsers.SplitFormatLine | ReportParsers.py:22 | Splitting a row written from a transaction gives back its fields. |
| ReportParsers.ParseLineFields | ReportParsers.py:22-43 | A line whose fields are those of a transaction parses to that transaction. |
| ReportParsers.ParseLineFormat | ReportParsers.py:22-43 | A row written from a transaction parses back to that transaction. |
| ReportParsers.Results | ReportParsers.py:21-22 | There is one parse result per line, in line order. |
| ReportParsers.Collect | ReportParsers.py:21-44 | Line results folded in order into the transaction list, stopping at the first error. `CollectMeaning` states its meaning. |
| ReportParsers.ParseAll | ReportParsers.py:19-44 | A whole file's lines, parsed as `Collect` of their results. `CollectMeaning` states its meaning. |
| ReportParsers.CollectMeaning | ReportParsers.py:19-44 | The file parses iff every line does. It then gives one transaction per line, in line order. Otherwise it gives the first bad line's error, with no partial result. |
| ReportParsers.ParseAbnAmroTransactions | ReportParsers.py:18-44 | The loop over the lines returns exactly what `ParseAll` describes. |
| TransactionTransformers.LowercaseStrFields | TransactionTransformers.py:8-16 | The output has the same length and order. Sender, receiver and currency are the lower-cased inputs, and every other field is unchanged. |
| TransactionTransformers.LowercaseStrFieldsIdempotent | TransactionTransformers.py:8-16 | Normalising twice is normalising once. |
| TransactionTransformers.LowercaseStrFieldsConcat | TransactionTransformers.py:9-16 | Normalising a concatenation normalises each part, record by record. |
| TransactionTransformers.LowercaseStrFieldsKeepsSum | TransactionTransformers.py:10-14 | Amounts pass through, so the sum is unchanged. |
| ReportAggregation.InitialBuckets | ReportAggregator.py:13 | There are exactly the three buckets ABN, ING and Revolut, all empty. |
| ReportAggregation.BankPrefix | ReportAggregator.py:29 | The bank is the longest prefix without `_`, and it is followed by `_` or the end. |
| ReportAggregation.BucketOfMeaning | ReportAggregator.py:26-37 | A file goes to ABN, ING or Revolut exactly when its name has a `_` and the text before it is `ABNAMRO`, `ING` or `Revolut`. No other bucket is ever chosen. |
| ReportAggregation.BucketOfPrefixed | ReportAggregator.py:29-35 | `bank_rest` has prefix `bank`, and it selects that bank's bucket if any. |
| ReportAggregation.BucketOfLowerCase | ReportAggregator.py:30-37 | Prefixes are case-sensitive: `abnamro_…` is ignored. |
| ReportAggregation.BucketOfEmptyPrefix | ReportAggregator.py:36-37 | The empty prefix selects no bucket. |
| ReportAggregation.BucketOfNoSeparator | ReportAggregator.py:26-28 | A name without `_` is ignored, even if it starts with a bank name. |
| ReportAggregation.RoutedMeaning | ReportAggregator.py:25-37 | Processing one file appends its path to the one bucket its name selects and leaves the others, and all buckets when none is selected, untouched. |
| ReportAggregation.RoutedAll | ReportAggregator.py:20-23 | Processing a listing keeps exactly the three buckets. |
| ReportAggregation.RoutedAllMeaning | ReportAggregator.py:20-23 | Each bucket receives, in listing order, exactly the paths whose names select it. |
| ReportAggregation.PathsFor | ReportAggregator.py:30-35 | A bucket receives at most one path per listed file. |
| ReportAggregation.PathsForCount | ReportAggregator.py:30-37 | The three buckets together receive each accepted file exactly once and no ignored file. |
| ReportAggregation.Then | ReportAggregator.py:40 | Two parse outcomes in order: success exactly when both succeed, with the lists joined. Otherwise it is the first failure. |
| ReportAggregation.ThenAssociative | ReportAggregator.py:40 | Joining outcomes does not depend on grouping. |
| ReportAggregation.ParseFilesSingle | ReportAggregator.py:40 | A one-file list's outcome is that file's parse. |
| ReportAggregation.ParseFilesMeaning | ReportAggregator.py:39-46 | A list of files parses exactly when every file does. Otherwise the error is that of the first failing file, every earlier file having parsed, so one bad file aborts the whole list with no partial result. |
| ReportAggregation.ParseFilesAppend | ReportAggregator.py:39-46 | Parsing a concatenation of file lists parses the first list, then the second. The first failure wins; otherwise the transactions are concatenated in order. |
| ReportAggregation.ParsedAfterRouting | ReportAggregator.py:39-46 | After one more file is routed, a bucket's outcome is the old one followed by that file's parse when the file went there, the first failure winning. Other buckets are unchanged. |
| ReportAggregation.BucketsOfListing | ReportAggregator.py:12-23 | A new aggregator's buckets hold exactly the paths, in listing order, of the files whose names select them. |
| ReportAggregation.ReportAggregator.constructor | ReportAggregator.py:12-14 | Three empty buckets, with every listed file routed in order. |
| ReportAggregation.ReportAggregator.CollectFiles | ReportAggregator.py:16-23 | Each file of the listing is processed in order. |
| ReportAggregation.ReportAggregator.ProcessFile | ReportAggregator.py:25-37 | The path is appended to the bucket the name selects, if any, and nothing else changes. |
| ReportAggregation.ReportAggregator.GetAbnTransactions | ReportAggregator.py:39-40 | The ABN bucket's files parsed in order by the ABN AMRO parser. It succeeds exactly when every file does. Otherwise it gives the first failing file's error. |
| ReportAggregation.ReportAggregator.GetIngTransactions | ReportAggregator.py:42-43 | The same for the ING bucket, with the ING parser as a parameter. |
| ReportAggregation.ReportAggregator.GetRevolutTransactions | ReportAggregator.py:45-46 | The same for the Revolut bucket, with the Revolut parser as a parameter. |
| Visualizer.SumBackIsSum | ExpenseVisualizer.py:25-33 | Adding amounts in loop order gives the sum of the amounts. |
| Visualizer.AddAmount | ExpenseVisualizer.py:31-33 | One `[name][month] += amount` on the nested `defaultdict`s. `EntryAdd`, `KeysAdd` and `WellFormedAdd` state its meaning. |
| Visualizer.Tally | ExpenseVisualizer.py:26-33 | One transaction of a category: counted as skipped for InternalTransfers, added to earnings for Income, else added to expenses. |
| Visualizer.TallyAll | ExpenseVisualizer.py:25-33 | The inner loop over one category's transactions. |
| Visualizer.TallyGroups | ExpenseVisualizer.py:21-33 | The outer loop over the categories. `TallyGroupsEntry`, `TallyGroupsRowTotal`, `TallyGroupsSkipped`, `TallyGroupsKeys`, `TallyGroupsWellFormed` and `TallyGroupsColumn` state its meaning. |
| Visualizer.EntryAdd | ExpenseVisualizer.py:31-33 | One `[name][month] += amount` changes exactly that entry, by exactly the amount. |
| Visualizer.RowTotalAdd | ExpenseVisualizer.py:31-33 | One addition grows only that category's row total, by the amount. |
| Visualizer.KeysAdd | ExpenseVisualizer.py:31-33 | One addition adds at most its own category name to the table's keys. |
| Visualizer.WellFormedAdd | ExpenseVisualizer.py:31-33 | One addition keeps names and, within a name, months distinct. |
| Visualizer.TallyGroupsEntry | ExpenseVisualizer.py:21-33 | Each entry is the sum of that category's amounts dated in that month. InternalTransfers adds to neither table, Income only to earnings, and others only to expenses. |
| Visualizer.TallyGroupsRowTotal | ExpenseVisualizer.py:21-33 | Summing a category's entries over all months gives its total, in the table its name selects. |
| Visualizer.TallyGroupsSkipped | ExpenseVisualizer.py:27-29 | `skipped` counts InternalTransfers transactions, not categories. |
| Visualizer.TallyGroupsKeys | ExpenseVisualizer.py:25-33 | A category gets a row exactly when it has a transaction added to that table. |
| Visualizer.TallyGroupsWellFormed | ExpenseVisualizer.py:21-33 | The tables never hold a name twice, or a month twice within a name. |
| Visualizer.TallyGroupsColumn | ExpenseVisualizer.py:21-33 | Across all expense rows, a month holds the expense amounts dated in it. Across the earnings rows, it holds the Income amounts. |
| Visualizer.CrossTotals | ExpenseVisualizer.py:96-102 | The nested loops adding every row's month entries into one per-month total. `CrossTotalsFind` states its meaning. |
| Visualizer.CrossTotalsFind | ExpenseVisualizer.py:96-102 | Each per-month total is the sum over all rows of that month's entries. A month has a total iff some row holds it. |
| Visualizer.MonthlyTotalsMeaning | ExpenseVisualizer.py:93-102 | The per-month expense total is the sum of every expense amount dated in that month. The per-month earnings total is the sum of the Income amounts. |
| Visualizer.MonthLessStrictTotal | ExpenseVisualizer.py:104 | Month keys are strictly totally ordered by year, then month. |
| Visualizer.SortedMonths | ExpenseVisualizer.py:104 | `sorted(set(months))`. `SortedMonthsMeaning` states its meaning. |
| Visualizer.SortedMonthsMeaning | ExpenseVisualizer.py:104 | `sorted(set(...))` holds exactly the given months, each once, in increasing order. |
| Visualizer.ExpenseVisualizer.constructor | ExpenseVisualizer.py:12-17 | The categories are kept and their lists sorted in place. The tables and `skipped` are those of the tally over the sorted lists. |
| Visualizer.ExpenseVisualizer.ComputeMonthlyTotals | ExpenseVisualizer.py:19-34 | Each category's list is sorted in place with its total unchanged. The tables become the tally of every category over the old tables, and `skipped` is the tally's count. |
| Visualizer.ExpenseVisualizer.TallyCategory | ExpenseVisualizer.py:25-33 | The inner loop leaves the tables and count as one category's tally over the old ones. |
| Visualizer.ExpenseVisualizer.MonthlyTotals | ExpenseVisualizer.py:93-104 | Both total maps are the per-month sums across rows. The month list is strictly increasing and is the union of both tables' months. |
| Visualizer.SumByMonth | ExpenseVisualizer.py:96-98 | The nested loops compute the per-month sums across rows. |
| Summary.SummarizeSigns | main.py:47-65 | After the loop, `total_earn >= 0 >= total_spent`. |
| Summary.Record | main.py:56-65 | One category of the summary loop: skipped for InternalTransfers, otherwise added to the earned side if its total is positive and to the spent side if not. |
| Summary.Summarize | main.py:55-65 | The summary loop over (name, total) pairs. `SummarizeMembership`, `SummarizePartition`, `SummarizeConcat` and `SummarizeSigns` state its meaning. |
| Summary.SummarizeConcat | main.py:55-65 | The summary of a concatenation combines the two summaries: sums added, name lists concatenated in order. |
| Summary.SummarizePartition | main.py:55-65 | Every non-InternalTransfers category is in exactly one name list. The two totals add up to the sum of their totals. |
| Summary.SummarizeMembership | main.py:56-65 | A name is earned iff it is a non-InternalTransfers category with a positive total. It is spent iff it is one with total `<= 0`. |
| Summary.ZeroTotalIsSpent | main.py:63-65 | A category with total zero counts as spent. |
| Summary.SummarizeCategories | main.py:47-65 | The loop over the categories yields exactly the summary of their names and totals. |
| TelegramFrontend.SupportedByLastFour | TelegramFrontend.py:29-32 | Accepted iff the lower-cased name ends in `.txt` or `.csv` and the MIME type is non-empty and starts with `text/`. |
| TelegramFrontend.IsSupportedTextFile | TelegramFrontend.py:29-32 | The upload filter. `SupportedByLastFour` states its meaning. |
| TelegramFrontend.NameCaseIgnored | TelegramFrontend.py:30 | Lower-casing the name first changes nothing. |
| TelegramFrontend.UpperCaseExtensionAccepted | TelegramFrontend.py:30 | `REPORT.CSV` with `text/csv` is accepted. |
| TelegramFrontend.MimeCaseMatters | TelegramFrontend.py:31 | `TEXT/plain` is refused. |
| TelegramFrontend.MissingMimeRejected | TelegramFrontend.py:31 | A missing or empty MIME type is always refused. |
| TelegramFrontend.MissingNameRejected | TelegramFrontend.py:41 | A document without a name, passed as `""`, is refused. |
| Dicts.FindUpsert | ExpenseVisualizer.py:31-33 | `d[k] = f(d[k])` on a `defaultdict` changes only key `k`, to `f` of its old or default value. |
| Dicts.KeysUpsert | ExpenseVisualizer.py:31-33 | An existing key keeps its place, and a new key is appended at the end. |
| Dicts.TotalAdd | ExpenseVisualizer.py:98 | `d[k] += a` adds exactly `a` to the sum of the values. |

## Left out

- Floating point is not modelled: amounts, balances and all totals are integer cents. `parse_float` accepts an optional sign, decimal digits and at most two fractional digits. Exponents, `inf`, `nan`, underscores, surrounding whitespace and sub-cent precision are refused rather than rounded.
- Unicode is not modelled. `str.lower` lowers only ASCII letters, and `strptime` accepts only ASCII digits.
- Regular expressions are modelled only as the pattern subset the rule lists use. An alternation `(a|b)` inside one pattern is written as two rules of the same `any(...)`. This gives the same verdict but does not model the regex engine in general.
- File and directory I/O is not modelled. The parser receives the file's lines. The aggregator receives the directory listing as (name, path) pairs of regular files, and a single-file path is a one-entry listing. Printed messages and logging are also left out.
- Reading a file's lines in the aggregator is a function parameter. The ING and Revolut parsers are not part of this model, so they are parameters too, free to fail with any error. `GetIngTransactions` and `GetRevolutTransactions` state only the order of parsing and its first-failure rule.
- The Transaction record carries the parser's seven fields plus `sender` and `receiver`, which the categories and the normaliser read. The parser does not set them, so it leaves both empty.
- Error messages are constructors that carry the text they report (the stripped line, or the refused number). The ambiguity message is modelled without the transaction's own rendering.
- The month key is the pair (year, month), not the string `"%Y-%m"`. For four-digit years both sort the same.
- The inner loop of `_compute_monthly_totals` is the separate method `TallyCategory`. The summary loop of `main.py` is a method over the category list that reads `total` directly.
- The percentage-threshold filter (ExpenseVisualizer.py:36-54) and all plotting are left out.
- `CategoriesWriter.py` is not part of this model. Neither are argument parsing and printing in `main.py`, nor the bot, network and environment handling of `TelegramFrontend.py`.
- Categories.Category.GetTotal: promises the sum of the list only while the total matches the list. Every constructor and method keeps that, but a caller that writes the fields directly could break it.
- Categories.Category.IsMatched and GetFlowDirection carry no contract of their own. Their meaning is stated by `MatcherVerdict` and `FlowOf`.
- The tests' `NotGroceries` category does not exist in `Categories.py`, so it is not modelled. The tests' old record shape is restated with lower-case receivers (`GammaIsNotGroceries`, `MixedSignsAddUp`).
