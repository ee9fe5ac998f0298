# rescuelearn core, modelled in Dafny

rescuelearn is a first-aid training site. Its Next.js front end has these parts:

- a Glasgow Coma Scale table trainer;
- a list and a carousel of learning cards, each pointing at a page of a PDF reference;
- catalogues of quizzes and of SNV scenarios (triage of many victims);
- the end-of-quiz results screen;
- the service that turns an API quiz into what the quiz screen shows.

Its Symfony back end holds the quiz, level, category, scenario, victim and learning-card entities. Three admin actions import quizzes, scenarios and cards from JSON.

This project models those rules and proves what they promise. The logic that only computes is written as datatypes, functions and lemmas. The parts that change state are written as classes:

- the trainer, the list, the carousel and the catalogues keep their state slots as fields;
- the Doctrine entities keep their two-way associations;
- the import actions work against an entity manager that queues objects and writes them in one flush.

Each such method states its whole new state. Lemmas beside it relate that state to the functions that specify it.

Modules follow the source files:

- `GlasgowTraining`: the trainer.
- `LearningPage`, `LearningFilters`, `LearningBar`, `LearningCardView`: the learning cards.
- `PageReference`: the "Page n" extraction that the carousel and the card share.
- `QuizSearch` and `QuizData`: the older quiz catalogue under `src/`.
- `QuizCatalogue`, `SnvCatalogue` and `CatalogueCommon`: the two current catalogues.
- `QuizResults` and `Percent`: the results screen.
- `QuizService`: the API transform.
- `QuizEntities`, `SnvEntities`, `EntityStore`: the entities and the entity manager.
- `Json`: the decoded document and PHP's reading of it.
- `Imports`: the three import actions.
- `QuizImportFormat`: the sample the quiz import form shows.
- `Base`, `Text` and `Seqs`: shared helpers.

Inputs that come from outside the program are parameters:

- a fetch's outcome;
- the database's answer to a flush;
- the decoded request;
- the value a random draw picks.

Navigations and opened URLs are returned as values.

## Model

| member | source | states |
|---|---|---|
| GlasgowTraining.ItemScores | front/src/app/glasgow/components/GlasgowTableTraining.tsx:15-37 | the eye, verbal and motor rows number 4, 5 and 6, and row i of each has score i + 1 |
| GlasgowTraining.RowAt | front/src/app/glasgow/components/GlasgowTableTraining.tsx:15-37 | row i of the 15-row table belongs to the eye part for i < 4, the verbal part for i < 9, the motor part otherwise |
| GlasgowTraining.AllCells | front/src/app/glasgow/components/GlasgowTableTraining.tsx:60-69 | the table has 30 cell ids, two per row, the score cell first |
| GlasgowTraining.BuildAllCells | front/src/app/glasgow/components/GlasgowTableTraining.tsx:60-69 | the nested `forEach` pushes exactly the ids of `AllCells`, in order |
| GlasgowTraining.PushCategory | front/src/app/glasgow/components/GlasgowTableTraining.tsx:63-68 | pushing one category's rows extends the list from the ids of the earlier categories' rows to the ids of the rows up to and including this category |
| GlasgowTraining.AllCellsOfRow | front/src/app/glasgow/components/GlasgowTableTraining.tsx:65-67 | row r yields its `-score` id at position 2r and its `-description` id at 2r + 1 |
| GlasgowTraining.RowCells | front/src/app/glasgow/components/GlasgowTableTraining.tsx:63-68 | row k of category ci lands at row index Offset(ci) + k |
| GlasgowTraining.OfKind | front/src/app/glasgow/components/GlasgowTableTraining.tsx:73-77 | the filter keeps exactly the ids that end with the suffix, and never lengthens the list |
| GlasgowTraining.KindSuffixes | front/src/app/glasgow/components/GlasgowTableTraining.tsx:66-67 | a score id ends with `-score` and not `-description`, a description id the reverse |
| GlasgowTraining.AvailableCount | front/src/app/glasgow/components/GlasgowTableTraining.tsx:48-77 | a mode offers exactly `getMaxCells()` cells: 15 for scores or descriptions, 30 for mixed |
| GlasgowTraining.OfKindAlternating | front/src/app/glasgow/components/GlasgowTableTraining.tsx:73-77 | when ids alternate between the two kinds, the filter keeps half of them |
| GlasgowTraining.SplitCellId | front/src/app/glasgow/components/GlasgowTableTraining.tsx:127 | splitting an id on '-' gives back its category, its score digits and its kind |
| GlasgowTraining.CellIdInjective | front/src/app/glasgow/components/GlasgowTableTraining.tsx:66-67 | two cells with the same id have the same category, score and kind |
| GlasgowTraining.RowAtInjective | front/src/app/glasgow/components/GlasgowTableTraining.tsx:15-37 | two rows with the same category and score are the same row |
| GlasgowTraining.AllCellsDistinct | front/src/app/glasgow/components/GlasgowTableTraining.tsx:60-69 | no id appears twice among the 30 |
| GlasgowTraining.AvailableDistinct | front/src/app/glasgow/components/GlasgowTableTraining.tsx:71-77 | no id appears twice among the cells of any mode |
| GlasgowTraining.PrefixSetSize | front/src/app/glasgow/components/GlasgowTableTraining.tsx:80-84 | taking the first k ids of a repetition-free list gives a set of k ids |
| GlasgowTraining.SelectionOfSize | front/src/app/glasgow/components/GlasgowTableTraining.tsx:80-84 | for every k up to the number of available cells, some set of k available cells exists |
| GlasgowTraining.DrawCells | front/src/app/glasgow/components/GlasgowTableTraining.tsx:59-84 | the drawn set contains only cells of the mode, and its size is `min(count, available)` |
| GlasgowTraining.FindItem | front/src/app/glasgow/components/GlasgowTableTraining.tsx:129 | `find` returns a row with the score when one exists, and nothing when no row has it |
| GlasgowTraining.CorrectAnswerOfRow | front/src/app/glasgow/components/GlasgowTableTraining.tsx:126-133 | a cell of an existing row answers with the score's digits for a score cell and the row's description for a description cell |
| GlasgowTraining.CorrectAnswerOfMissingScore | front/src/app/glasgow/components/GlasgowTableTraining.tsx:131 | a score the category lacks answers '' |
| GlasgowTraining.IsCorrect | front/src/app/glasgow/components/GlasgowTableTraining.tsx:138-150 | the grade is null exactly before checking, and a right answer is a present, non-empty one |
| GlasgowTraining.ScoreCellGrading | front/src/app/glasgow/components/GlasgowTableTraining.tsx:143-146 | a score cell is right exactly when the answer is non-empty and `parseInt` reads it as the row's score |
| GlasgowTraining.DescriptionCellGrading | front/src/app/glasgow/components/GlasgowTableTraining.tsx:143-148 | a description cell is right exactly when the lower-cased, trimmed answer equals the lower-cased, trimmed description |
| GlasgowTraining.AllCellsKnown | front/src/app/glasgow/components/GlasgowTableTraining.tsx:127-129 | every cell id names one of the three parts, so the lookup `glasgowData[category]` is defined |
| GlasgowTraining.RightAmongAdd | front/src/app/glasgow/components/GlasgowTableTraining.tsx:159-161 | adding one cell adds one to the count of right cells exactly when that cell is graded right |
| GlasgowTraining.CountRight | front/src/app/glasgow/components/GlasgowTableTraining.tsx:155-164 | the loop counts exactly the hidden cells graded right, at most the number hidden, and none before checking |
| GlasgowTraining.MasteryLevel | front/src/app/glasgow/components/GlasgowTableTraining.tsx:481-493 | each of the six labels exactly on its band: "Parfait" at full marks, then below full marks "Excellent" from 0.9, "Très bien" from 0.8 to below 0.9, "Bien" from 0.7 to below 0.8, "Moyen" from 0.6 to below 0.7, "À améliorer" below 0.6 |
| GlasgowTraining.RatioThresholdMonotone | front/src/app/glasgow/components/GlasgowTableTraining.tsx:489-492 | a ratio threshold met by a smaller ratio is met by a larger one |
| GlasgowTraining.MasteryMonotone | front/src/app/glasgow/components/GlasgowTableTraining.tsx:481-493 | a better ratio never earns a lower level |
| GlasgowTraining.EncouragementFor | front/src/app/glasgow/components/GlasgowTableTraining.tsx:499-506 | the mastery sentence exactly at full marks, "parfaitement" only when the whole table was hidden; "Presque parfait" exactly from 0.8; "réviser" exactly below 0.6 |
| GlasgowTraining.PresetCount | front/src/app/glasgow/components/GlasgowTableTraining.tsx:300-324 | a preset count is the least integer at or above the percentage of the maximum |
| GlasgowTraining.IncreasedCount | front/src/app/glasgow/components/GlasgowTableTraining.tsx:513 | the new count never exceeds the maximum, grows whenever it was below it, and is either the maximum or the old count plus a quarter of the maximum rounded up |
| GlasgowTraining.Results | front/src/app/glasgow/components/GlasgowTableTraining.tsx:474-521 | the panel shows the score, the rounded percentage, the level and the sentence, and offers a harder round exactly after full marks below the maximum |
| GlasgowTraining.PerfectRound | front/src/app/glasgow/components/GlasgowTableTraining.tsx:476-521 | full marks show 100% and "Parfait", and taking the offered harder round hides strictly more cells, never more than the table |
| GlasgowTraining.Trainer.constructor | front/src/app/glasgow/components/GlasgowTableTraining.tsx:39-43 | the trainer starts in mixed mode with 8 cells to hide, no answers and no results, and draws a valid first table |
| GlasgowTraining.Trainer.GenerateHiddenCells | front/src/app/glasgow/components/GlasgowTableTraining.tsx:59-87 | a new table hides `min(numCellsToHide, available)` distinct cells of the mode and clears answers and results |
| GlasgowTraining.Trainer.HandleAnswerChange | front/src/app/glasgow/components/GlasgowTableTraining.tsx:109-114 | typing records the text under the cell's id and changes nothing else |
| GlasgowTraining.Trainer.CheckAnswers | front/src/app/glasgow/components/GlasgowTableTraining.tsx:119-121 | checking shows the results, and the button does nothing while no answer was typed |
| GlasgowTraining.Trainer.Restart | front/src/app/glasgow/components/GlasgowTableTraining.tsx:340-349 | restarting keeps the hidden cells and clears answers and results |
| GlasgowTraining.Trainer.SetGameMode | front/src/app/glasgow/components/GlasgowTableTraining.tsx:92-97 | a new mode lowers the count to the new maximum when it exceeds it, then draws a new table |
| GlasgowTraining.Trainer.ClampToMode | front/src/app/glasgow/components/GlasgowTableTraining.tsx:92-97 | the count becomes `getMaxCells()` exactly when it exceeded it, and nothing else changes |
| GlasgowTraining.Trainer.SetNumCellsToHide | front/src/app/glasgow/components/GlasgowTableTraining.tsx:281-324 | from the slider or a preset, a count from 1 to the maximum is kept; a changed count draws a new table and clears the answers and results; the count already set leaves table, answers and results unchanged, since React skips an equal state update and the redraw effect does not rerun |
| GlasgowTraining.Trainer.IncreaseDifficulty | front/src/app/glasgow/components/GlasgowTableTraining.tsx:510-515 | the count becomes `IncreasedCount` of the old one, strictly larger when it was below the maximum, and the trainer stays valid; a changed count clears the answers and hides the results, an unchanged one leaves the table, the answers and the results as they were |
| GlasgowTraining.Trainer.HiddenCellsKnown | front/src/app/glasgow/components/GlasgowTableTraining.tsx:127-129 | every hidden cell names one of the three parts |
| GlasgowTraining.Trainer.CalculateScore | front/src/app/glasgow/components/GlasgowTableTraining.tsx:155-164 | the total is the number of hidden cells, and the count is the number graded right, at most the total and 0 before checking |
| GlasgowTraining.MaxCells | front/src/app/glasgow/components/GlasgowTableTraining.tsx:48-54 | `getMaxCells`: 15 rows for the scores or descriptions mode, 30 cells in mixed mode (equal to the available count by GlasgowTraining.AvailableCount) |
| GlasgowTraining.Available | front/src/app/glasgow/components/GlasgowTableTraining.tsx:72-77 | the cells a mode may hide: all 30, or those ending in "-score", or those ending in "-description" |
| GlasgowTraining.CorrectAnswer | front/src/app/glasgow/components/GlasgowTableTraining.tsx:126-133 | `getCorrectAnswer`: the id split on '-', the score parsed and looked up in its category; '' without a row, the score's text for a score cell, the description otherwise |
| GlasgowTraining.MasteryText | front/src/app/glasgow/components/GlasgowTableTraining.tsx:484-492 | the six labels of the mastery ladder, one per level |
| GlasgowTraining.EncouragementText | front/src/app/glasgow/components/GlasgowTableTraining.tsx:498-505 | the four sentences under the level, "parfaitement" or "bien" for mastery |
| GlasgowTraining.Trainer.Valid | front/src/app/glasgow/components/GlasgowTableTraining.tsx:38-43 | the trainer's invariant: a count between 1 and the mode's maximum, and exactly that many hidden cells, all available in the mode |
| GlasgowTraining.Items | front/src/app/glasgow/components/GlasgowTableTraining.tsx:15-37 | the rows of `glasgowData`: four eye, five verbal and six motor responses, scored from 1 |
| GlasgowTraining.CellId | front/src/app/glasgow/components/GlasgowTableTraining.tsx:66-67 | the cell id template `${category}-${score}-${type}` |
| GlasgowTraining.RightAmong | front/src/app/glasgow/components/GlasgowTableTraining.tsx:155-164 | the hidden cells that `isCorrect` grades right, which `calculateScore` counts |
| LearningPage.FilterCardsIsOneFilter | front/src/app/learning/page.tsx:46-54 | the two filters keep exactly the cards matching a truthy theme and a truthy niveau, in their original order, as a subsequence of all cards |
| LearningPage.InsertByTheme | front/src/app/learning/page.tsx:58 | inserting a card adds exactly that card to the list's multiset |
| LearningPage.SortByTheme | front/src/app/learning/page.tsx:58 | sorting is a permutation of its input |
| LearningPage.InsertKeepsSorted | front/src/app/learning/page.tsx:58 | inserting into a list ordered by theme keeps it ordered |
| LearningPage.SortByThemeSorted | front/src/app/learning/page.tsx:57-58 | in alphabetical mode the list is ordered by theme |
| LearningPage.InsertWithinTheme | front/src/app/learning/page.tsx:58 | inserting a card keeps the relative order of the cards of each theme |
| LearningPage.SortByThemeStable | front/src/app/learning/page.tsx:58 | the sort is stable: the cards of each theme keep their order |
| LearningPage.Shuffle | front/src/app/learning/page.tsx:61-64 | the Fisher–Yates loop, swapping position i with some j in [0, i], permutes the array |
| LearningPage.Arrange | front/src/app/learning/page.tsx:56-65 | the ordering step permutes the filtered list, and in alphabetical mode gives exactly the list sorted by theme |
| LearningPage.TotalPages | front/src/app/learning/page.tsx:71 | `ceil(count / k)`: the least number of pages of k items that holds every item |
| LearningPage.PageSize | front/src/app/learning/page.tsx:72-75 | a page holds at most `itemsPerPage` cards |
| LearningPage.PrefixThenSlice | front/src/app/learning/page.tsx:72-75 | the cards before a slice's start, then the slice, are the cards before its end |
| LearningPage.PagesArePrefix | front/src/app/learning/page.tsx:72-75 | pages 1 to n, one after the other, are the first n·k cards |
| LearningPage.PagesCoverList | front/src/app/learning/page.tsx:71-75 | pages 1 to `totalPages` put back together are exactly the filtered list |
| LearningPage.PageEmptiness | front/src/app/learning/page.tsx:71-75 | a page is empty exactly when its number is above `totalPages` |
| LearningPage.NoCardsOnFirstPage | front/src/app/learning/page.tsx:125-128 | on page 1 the "Aucune carte" message shows exactly when no card passes the filters |
| LearningPage.LearningList.constructor | front/src/app/learning/page.tsx:15-22 | the page starts loading, with no cards, no theme or niveau, random order, page 1 and 9 cards per page |
| LearningPage.LearningList.ApplyFilters | front/src/app/learning/page.tsx:45-69 | the list effect leaves the filtered cards a permutation of the matching cards (sorted by theme in alphabetical mode), goes back to page 1 and changes no selection |
| LearningPage.LearningList.Loaded | front/src/app/learning/page.tsx:25-43 | a successful fetch stores the cards and reruns the list effect; a failed one leaves the lists unchanged; loading ends either way |
| LearningPage.LearningList.SelectTheme | front/src/app/learning/page.tsx:45-69 | a theme button sets the theme, and returns to page 1 with a fresh list when the theme changed |
| LearningPage.LearningList.SelectNiveau | front/src/app/learning/page.tsx:45-69 | a niveau button sets the niveau, and returns to page 1 with a fresh list when the niveau changed |
| LearningPage.LearningList.ChangeSort | front/src/app/learning/page.tsx:82-85 | a sort choice sets the option and goes back to page 1, keeping the list when the option did not change |
| LearningPage.LearningList.ChangeItemsPerPage | front/src/app/learning/page.tsx:77-80 | a page-size choice sets the size and goes back to page 1, keeping the list |
| LearningPage.LearningList.ResetFilters | front/src/app/learning/components/LearningFilters.tsx:45-49 | reset clears theme and niveau, restores random order, keeps the page size and lands on page 1 |
| LearningPage.LearningList.GoToPage | front/src/app/learning/page.tsx:147-150 | a page button moves to that page and changes nothing else |
| LearningPage.LearningList.PaginatedCards | front/src/app/learning/page.tsx:72-75 | the current page holds at most `itemsPerPage` cards and is empty exactly when the page number is above `totalPages` |
| LearningFilters.ActiveFilters | front/src/app/learning/components/LearningFilters.tsx:36-41 | a theme chip exactly for a truthy theme, first; a niveau chip exactly for a truthy niveau, right after it; a sort chip in alphabetical mode, before the page-size chip, which is always last |
| LearningFilters.ChipRowAlwaysShown | front/src/app/learning/components/LearningFilters.tsx:36-41 | the chip list is never empty, so the chip row always renders |
| LearningFilters.Reset | front/src/app/learning/components/LearningFilters.tsx:45-49 | reset keeps the page size and leaves nothing that shows the reset button |
| LearningFilters.ResetLeavesPageSizeChip | front/src/app/learning/components/LearningFilters.tsx:36-49 | after a reset only the page-size chip remains, and a second reset changes nothing |
| LearningFilters.ResetOfInactive | front/src/app/learning/components/LearningFilters.tsx:43-49 | a selection with nothing active is its own reset |
| LearningFilters.ChipImpliesActive | front/src/app/learning/components/LearningFilters.tsx:36-43 | any chip besides the page size makes the reset button appear |
| LearningFilters.EmptyThemeActiveWithoutChip | front/src/app/learning/components/LearningFilters.tsx:37-43 | an empty-string theme shows the reset button but no theme chip |
| LearningFilters.ItemsPerPageOptionsPositive | front/src/app/learning/components/LearningFilters.tsx:20 | the page-size choices are exactly 9, 18, 27 and 36, all positive |
| LearningPage.FilterCards | front/src/app/learning/page.tsx:47-54 | the list effect's two `filter` calls, each applied only when its selection is truthy |
| LearningPage.Page | front/src/app/learning/page.tsx:72-75 | `slice((page - 1) * k, page * k)` of the filtered list |
| LearningPage.Pages | front/src/app/learning/page.tsx:72-75 | pages 1 to n of the list, one after the other |
| LearningPage.LearningList.PageCount | front/src/app/learning/page.tsx:71 | `Math.ceil(filteredCards.length / itemsPerPage)` |
| LearningPage.LearningList.ShowsNoCardsMessage | front/src/app/learning/page.tsx:125-127 | the "no cards" message replaces the grid exactly when the current page is empty |
| LearningPage.LearningList.ShowsPageButtons | front/src/app/learning/page.tsx:125-147 | the page buttons show only beside a non-empty grid, and only with more than one page |
| LearningFilters.HasActiveFilters | front/src/app/learning/components/LearningFilters.tsx:43 | the reset button shows when theme or niveau is not `null` or the sort is alphabetical |
| LearningFilters.ItemsChip | front/src/app/learning/components/LearningFilters.tsx:40 | the page-size chip `Éléments: ${itemsPerPage}` |
| LearningBar.Next | front/src/app/learning/components/LearningBar.tsx:41 | the next index stays below the card count, is i + 1 inside the list and wraps to 0 after the last card |
| LearningBar.Prev | front/src/app/learning/components/LearningBar.tsx:99 | the previous index stays below the card count, is i − 1 above 0 and wraps to the last card before 0 |
| LearningBar.PrevNextInverse | front/src/app/learning/components/LearningBar.tsx:99-106 | stepping back then forward, or forward then back, returns to the same card |
| LearningBar.NextTimes | front/src/app/learning/components/LearningBar.tsx:40-42 | any number of ticks keeps the index below the card count |
| LearningBar.NextTimesIsModular | front/src/app/learning/components/LearningBar.tsx:40-42 | k steps forward from i land on (i + k) mod n |
| LearningBar.ReferenceUrlDefault | front/src/app/learning/components/LearningBar.tsx:50-52 | a reference without "Page <digit>" opens the textbook PDF at page 1 |
| LearningBar.Bar.constructor | front/src/app/learning/components/LearningBar.tsx:10-14 | the bar mounts with no cards, index 0, visible, loading and without error |
| LearningBar.Bar.Loaded | front/src/app/learning/components/LearningBar.tsx:16-36 | an array becomes the cards; anything else gives "Format de données invalide" and a failure the loading message, with no cards; loading ends |
| LearningBar.Bar.Tick | front/src/app/learning/components/LearningBar.tsx:38-46 | the interval, installed only when there are cards, moves to the next card and changes nothing else |
| LearningBar.Bar.StepNext | front/src/app/learning/components/LearningBar.tsx:105-111 | the right arrow moves to the next card and changes nothing else |
| LearningBar.Bar.StepPrev | front/src/app/learning/components/LearningBar.tsx:98-104 | the left arrow moves to the previous card and changes nothing else |
| LearningBar.Bar.Close | front/src/app/learning/components/LearningBar.tsx:112-118 | closing hides the bar and changes nothing else; no method shows it again |
| LearningBar.Bar.Displayed | front/src/app/learning/components/LearningBar.tsx:55-63 | a card shows exactly when the bar is visible, loaded, without error and non-empty, and it is the card at the current index |
| LearningCardView.ReferenceClick | front/src/app/learning/components/LearningCard.tsx:17-27 | nothing opens exactly when the PDF URL is absent or empty; otherwise the URL opened starts with the PDF URL |
| LearningCardView.ReferenceClickFragment | front/src/app/learning/components/LearningCard.tsx:22-26 | the `#page=` fragment of the opened URL reads back as the reference's page number |
| LearningCardView.ReferenceClickOpensPage | front/src/app/learning/components/LearningCard.tsx:19-26 | a reference whose first "Page <digit>" is followed by the digits of n opens `pdfUrl#page=n` |
| PageReference.FirstMatch | front/src/app/learning/components/LearningBar.tsx:50 | the match found is "Page " then a digit, and no earlier position matches; no result means no position matches |
| PageReference.FirstMatchIsLeftmost | front/src/app/learning/components/LearningBar.tsx:50 | the search returns the leftmost matching position |
| PageReference.PageNumberDefault | front/src/app/learning/components/LearningBar.tsx:51 | with no "Page <digit>" the page is 1 |
| PageReference.MarkerHasNoDigit | front/src/app/learning/components/LearningBar.tsx:50 | the characters of "Page " are not digits |
| PageReference.PageNumberOf | front/src/app/learning/components/LearningBar.tsx:50-51 | the first "Page " followed by the digits of n, then a non-digit or the end, yields n, whatever follows |
| LearningBar.ReferenceUrl | front/src/app/learning/components/LearningBar.tsx:48-53 | the textbook PDF opened at the page number read from the reference |
| LearningBar.Bar.TimerInstalled | front/src/app/learning/components/LearningBar.tsx:38-46 | the ten-second interval is installed only when the card list is non-empty |
| LearningCardView.ShowsReference | front/src/app/learning/components/LearningCard.tsx:55 | the reference line renders only for a non-empty reference |
| PageReference.PageNumber | front/src/app/learning/components/LearningCard.tsx:22-23 | the digit run after the first "Page " followed by a digit, read in base 10, and 1 without a match |
| QuizSearch.FilterOptional | src/app/quiz/page.tsx:51-58 | a filter skipped because its selection is "Tous" gives the same list as filtering by a condition that is always met for that selection |
| QuizSearch.SearchIsOneFilter | src/app/quiz/page.tsx:47-71 | the result is exactly the quizzes accepted by category, difficulty and query, in catalogue order, as a subsequence of the catalogue |
| QuizSearch.FilterKeepsAllWhenEmpty | src/app/quiz/page.tsx:61 | an empty query filters nothing out |
| QuizSearch.SearchMonotone | src/app/quiz/page.tsx:50-68 | a stricter selection gives a subsequence of a looser selection's result |
| QuizSearch.Reset | src/app/quiz/page.tsx:150-154 | the reset selection is the loosest: every selection is at least as strict |
| QuizSearch.ResetListsAll | src/app/quiz/page.tsx:150-154 | after a reset every quiz is listed again, in order |
| QuizSearch.ResultLabel | src/app/quiz/page.tsx:109 | the label reads "trouvé" exactly for one result |
| QuizData.DedupSpec | src/app/quiz/data/quizData.ts:39 | `[...new Set(values)]` has no repeats and holds exactly the values |
| QuizData.DedupAppend | src/app/quiz/data/quizData.ts:39 | the set keeps first-occurrence order: a new value goes at the end, a repeated one changes nothing |
| QuizData.CategoriesSpec | src/app/quiz/data/quizData.ts:39 | `categories` has no repeats, holds every quiz's category, and only those |
| QuizData.ShippedCategories | src/app/quiz/data/quizData.ts:3-39 | for the shipped quizzes the categories are "Initiation" then "Techniques" |
| Seqs.Filter | src/app/quiz/page.tsx:52-67 | `filter` keeps only elements that satisfy the condition, every such element, and never lengthens the list |
| Seqs.FilterIsSubsequence | src/app/quiz/page.tsx:52-67 | filtering keeps the order of what it keeps |
| Seqs.FilterMonotone | src/app/quiz/page.tsx:50-68 | a stricter condition keeps a subsequence of what a looser one keeps |
| Seqs.FilterFilter | src/app/quiz/page.tsx:50-68 | two successive filters are one filter by both conditions |
| Seqs.Slice | front/src/app/learning/page.tsx:72-75 | `slice` never fails, and inside the bounds it is the plain subrange |
| QuizSearch.Search | src/app/quiz/page.tsx:47-70 | the filter effect: category, then difficulty, then query, each skipped when set to "Tous" or empty |
| QuizSearch.MatchesQuery | src/app/quiz/page.tsx:62-67 | the lower-cased query occurs in the lower-cased title, description or one of the tags |
| QuizData.Dedup | src/app/quiz/data/quizData.ts:39 | `[...new Set(values)]`: each value once, in first-seen order |
| QuizData.Categories | src/app/quiz/data/quizData.ts:39 | the deduplicated list of the quizzes' categories |
| QuizSearch.Accepts | src/app/quiz/page.tsx:47-67 | what one quiz must meet: its category and difficulty unless "Tous", and the query unless empty |
| QuizEntities.OptionLabel | back/src/Entity/QuestionOption.php:86-89 | `sprintf('%s) %s')` prints the letter, ") " and the text, a `null` as nothing |
| QuizEntities.OptionLabelSplits | back/src/Entity/QuestionOption.php:86-89 | a label whose letter holds no ')' splits back at its first ')' into the letter and the text |
| QuizEntities.OrEmpty | back/src/Entity/Quiz.php:158-161 | `?? ''` gives the value when set and '' otherwise |
| QuizEntities.Quiz.constructor | back/src/Entity/Quiz.php:39-74 | a new quiz has no title, 30 seconds per question, a 70% pass mark, no random mode, and no questions, categories or level |
| QuizEntities.Quiz.SetTitle | back/src/Entity/Quiz.php:86-91 | the setter stores the title and nothing else |
| QuizEntities.Quiz.SetTimePerQuestion | back/src/Entity/Quiz.php:98-103 | the setter stores the time and nothing else |
| QuizEntities.Quiz.SetPassingScore | back/src/Entity/Quiz.php:110-115 | the setter stores the pass mark and nothing else |
| QuizEntities.Quiz.SetModeRandom | back/src/Entity/Quiz.php:122-126 | the setter stores the flag and nothing else |
| QuizEntities.Quiz.SetLevel | back/src/Entity/Quiz.php:195-199 | the setter stores the level (or `null`) without telling any level |
| QuizEntities.Quiz.QuestionCount | back/src/Entity/Quiz.php:205-208 | the count is the size of the question collection |
| QuizEntities.Quiz.AddQuestion | back/src/Entity/Quiz.php:136-144 | a new question is appended and pointed at this quiz; a listed one changes nothing; the count grows by one exactly for a new question; both ends stay in step |
| QuizEntities.Quiz.RemoveQuestion | back/src/Entity/Quiz.php:146-156 | the question leaves the collection, and its quiz is cleared only if it was listed and still points here; both ends stay in step |
| QuizEntities.Quiz.AddCategoryQuestion | back/src/Entity/Quiz.php:171-179 | a new category is appended and lists this quiz; a listed one changes nothing; both ends stay in step |
| QuizEntities.Quiz.RemoveCategoryQuestion | back/src/Entity/Quiz.php:181-188 | the category leaves the collection and forgets this quiz only if it was listed; both ends stay in step |
| QuizEntities.Question.constructor | back/src/Entity/Question.php:39-61 | a new question has no text, answer, explanation, quiz or options |
| QuizEntities.Question.SetText | back/src/Entity/Question.php:73-77 | the setter stores the text |
| QuizEntities.Question.SetCorrectAnswer | back/src/Entity/Question.php:84-88 | the setter stores the answer |
| QuizEntities.Question.SetExplanation | back/src/Entity/Question.php:95-99 | the setter stores the explanation, `null` included |
| QuizEntities.Question.SetQuiz | back/src/Entity/Question.php:106-110 | the setter stores the quiz, `null` included |
| QuizEntities.Question.AddOption | back/src/Entity/Question.php:120-128 | a new option is appended and pointed at this question; a listed one changes nothing; both ends stay in step |
| QuizEntities.Question.RemoveOption | back/src/Entity/Question.php:130-140 | the option leaves the collection, and its question is cleared only if it was listed and still points here |
| QuizEntities.QuestionOption.constructor | back/src/Entity/QuestionOption.php:37-46 | a new option has no text, question or letter |
| QuizEntities.QuestionOption.SetText | back/src/Entity/QuestionOption.php:58-62 | the setter stores the text |
| QuizEntities.QuestionOption.SetQuestion | back/src/Entity/QuestionOption.php:69-73 | the setter stores the question, `null` included |
| QuizEntities.QuestionOption.SetOptionId | back/src/Entity/QuestionOption.php:80-84 | the setter stores the letter, `null` included |
| QuizEntities.LevelQuestion.constructor | back/src/Entity/LevelQuestion.php:23-35 | a new level has no name and lists no quiz |
| QuizEntities.LevelQuestion.SetName | back/src/Entity/LevelQuestion.php:47-51 | the setter stores the name |
| QuizEntities.LevelQuestion.AddQuiz | back/src/Entity/LevelQuestion.php:61-69 | a new quiz is appended and given this level; a listed one changes nothing; both ends stay in step |
| QuizEntities.LevelQuestion.RemoveQuiz | back/src/Entity/LevelQuestion.php:71-81 | the quiz leaves the list and loses its level only if it was listed and the level is this one |
| QuizEntities.CategoryQuestion.constructor | back/src/Entity/CategoryQuestion.php:32-35 | a new category has no name and lists no quiz |
| QuizEntities.CategoryQuestion.SetName | back/src/Entity/CategoryQuestion.php:47-51 | the setter stores the name |
| QuizEntities.CategoryQuestion.AddQuiz | back/src/Entity/CategoryQuestion.php:61-68 | the quiz is appended unless listed, the quiz itself is not touched, and the list stays without repeats |
| QuizEntities.CategoryQuestion.RemoveQuiz | back/src/Entity/CategoryQuestion.php:70-74 | the quiz is dropped if listed, and in a list without repeats it is gone entirely |
| QuizEntities.AddThenRemoveQuiz | back/src/Entity/LevelQuestion.php:61-81 | adding then removing a quiz leaves it unlisted, and without a level unless another level already held it |
| QuizEntities.RemoveAppended | back/src/Entity/LevelQuestion.php:61-81 | removing an element just appended restores the collection |
| QuizEntities.SecondLevelLeavesFirstStale | back/src/Entity/LevelQuestion.php:61-69 | adding a quiz to a second level leaves it listed by the first, whose collection no longer agrees with the quiz |
| Seqs.RemoveElement | back/src/Entity/Quiz.php:148 | `removeElement` drops one occurrence and keeps the rest, and leaves a collection without the element unchanged |
| Seqs.RemoveElementNoDuplicates | back/src/Entity/Quiz.php:148 | in a collection without repeats, removing an element removes it entirely and keeps it without repeats |
| Seqs.AppendNoDuplicates | back/src/Entity/Quiz.php:138-139 | appending an absent element keeps a collection without repeats |
| QuizEntities.Quiz.ToString | back/src/Entity/Quiz.php:158-161 | the title, or '' without one |
| QuizEntities.Question.ToString | back/src/Entity/Question.php:142-145 | the text, or '' without one |
| QuizEntities.QuestionOption.ToString | back/src/Entity/QuestionOption.php:86-89 | `sprintf('%s) %s')` of the letter and the text, through QuizEntities.OptionLabel |
| QuizEntities.LevelQuestion.ToString | back/src/Entity/LevelQuestion.php:83-86 | the name, or '' without one |
| QuizEntities.CategoryQuestion.ToString | back/src/Entity/CategoryQuestion.php:76-79 | the name, or '' without one |
| SnvEntities.TitleValid | back/src/Entity/SNVScenario.php:40-42 | a title passes `NotBlank` and `Length(3, 255)` exactly when it is set and 3 to 255 characters long |
| SnvEntities.LevelValid | back/src/Entity/SNVScenario.php:46-48 | a level passes `NotBlank` and `Choice` exactly when it is one of Débutant, Intermédiaire, Avancé |
| SnvEntities.AnswerValid | back/src/Entity/SNVVictim.php:42-44 | a correct answer passes exactly when it is set and between 0 and 3 (`NotBlank` lets 0 through) |
| SnvEntities.Scenario.constructor | back/src/Entity/SNVScenario.php:38-68 | a new scenario has no victims, is linked, and with its fields still `null` meets none of its constraints |
| SnvEntities.Scenario.VictimesCount | back/src/Entity/SNVScenario.php:60-63 | the count is the size of the victim collection |
| SnvEntities.Scenario.SetTitle | back/src/Entity/SNVScenario.php:80-84 | the setter stores the title and nothing else |
| SnvEntities.Scenario.SetLevel | back/src/Entity/SNVScenario.php:91-95 | the setter stores the level and nothing else |
| SnvEntities.Scenario.SetDescription | back/src/Entity/SNVScenario.php:102-106 | the setter stores the description and nothing else |
| SnvEntities.Scenario.ToString | back/src/Entity/SNVScenario.php:135-138 | the scenario prints as its title, or '' when it has none |
| SnvEntities.Scenario.AddVictime | back/src/Entity/SNVScenario.php:116-123 | a new victim is appended once and pointed at the scenario; a listed one changes nothing; the count grows by one exactly when the victim was new; the two-way link is kept |
| SnvEntities.Scenario.RemoveVictime | back/src/Entity/SNVScenario.php:125-133 | the victim leaves the collection; its back-reference is cleared only if it was listed and pointed here; a linked scenario stays linked |
| SnvEntities.Victim.constructor | back/src/Entity/SNVVictim.php:35-54 | a new victim has no fields and no scenario, so it meets no constraint and cannot be stored (the join column is not nullable) |
| SnvEntities.Victim.SetDescription | back/src/Entity/SNVVictim.php:66-70 | the setter stores the description and nothing else |
| SnvEntities.Victim.SetCorrectAnswer | back/src/Entity/SNVVictim.php:77-81 | the setter stores the answer number, unchecked, and nothing else |
| SnvEntities.Victim.SetExplanation | back/src/Entity/SNVVictim.php:88-92 | the setter stores the explanation and nothing else |
| SnvEntities.Victim.SetScenario | back/src/Entity/SNVVictim.php:99-103 | the setter accepts `null`; the victim can be stored exactly when the scenario is not `null` |
| SnvEntities.FillVictim | back/src/Entity/SNVVictim.php:35-49 | filling a new victim's three fields makes it valid exactly when both texts are non-empty and the answer is 0 to 3 |
| SnvEntities.NotBlank | back/src/Entity/SNVScenario.php:40 | Symfony's `NotBlank` on a string: `null` and "" are blank, anything else is not |
| SnvEntities.Scenario.MeetsConstraints | back/src/Entity/SNVScenario.php:40-53 | the title's, the level's and the description's declared constraints together |
| SnvEntities.Victim.MeetsConstraints | back/src/Entity/SNVVictim.php:37-49 | the description's, the answer's and the explanation's declared constraints together |
| SnvEntities.Victim.Storable | back/src/Entity/SNVVictim.php:51-53 | the join column is not nullable: a victim is storable only with a scenario |
| EntityStore.LearningCard.constructor | back/src/Entity/LearningCard.php:48-66 | a new card has all four fields `null` |
| EntityStore.LearningCard.SetTheme | back/src/Entity/LearningCard.php:78-82 | the setter stores the theme and nothing else |
| EntityStore.LearningCard.SetNiveau | back/src/Entity/LearningCard.php:89-93 | the setter stores the level and nothing else |
| EntityStore.LearningCard.SetInfo | back/src/Entity/LearningCard.php:100-104 | the setter stores the text and nothing else |
| EntityStore.LearningCard.SetReference | back/src/Entity/LearningCard.php:111-115 | the setter stores the reference and nothing else |
| EntityStore.Levels | back/src/Controller/Admin/QuizCrudController.php:117-118 | the levels taken from the stored rows are all stored level rows |
| EntityStore.LevelsListed | back/src/Controller/Admin/QuizCrudController.php:117-118 | every stored level row is among the levels that the repository searches |
| EntityStore.Categories | back/src/Controller/Admin/QuizCrudController.php:130-131 | the categories taken from the stored rows are all stored category rows |
| EntityStore.CategoriesListed | back/src/Controller/Admin/QuizCrudController.php:130-131 | every stored category row is among the categories that the repository searches |
| EntityStore.FindLevel | back/src/Controller/Admin/QuizCrudController.php:117-118 | `findOneBy(['name' => ...])` gives `null` exactly when no level has that name, and otherwise a listed level with that name |
| EntityStore.FindCategory | back/src/Controller/Admin/QuizCrudController.php:130-131 | `findOneBy(['name' => ...])` gives `null` exactly when no category has that name, and otherwise a listed category with that name |
| EntityStore.EntityManager.constructor | back/src/Controller/Admin/QuizCrudController.php:170-171 | the manager starts with the stored rows, nothing queued and no flush |
| EntityStore.EntityManager.Persist | back/src/Controller/Admin/QuizCrudController.php:160-170 | `persist` queues the object after those already queued |
| EntityStore.EntityManager.Flush | back/src/Controller/Admin/QuizCrudController.php:171 | `flush` writes the whole queue in order and empties it, or writes nothing when the database refuses it; either way one flush is counted |
| Imports.ImportFailed | back/src/Controller/Admin/QuizCrudController.php:180-184 | a refused flush's message is a `danger` flash made of the fixed prefix followed by the database's own message, which can be read back after the prefix |
| Imports.Conclude | back/src/Controller/Admin/QuizCrudController.php:170-188 | one flush is counted; a successful flush writes the queue, flashes success and redirects; a refused one writes nothing, flashes the database's message and shows the form again |
| Imports.PlannedCards | back/src/Controller/Admin/LearningCardCrudController.php:88-95 | one card per entry of `cartes`, in order, each with the top-level theme |
| Imports.CardsTypeCheckCases | back/src/Controller/Admin/LearningCardCrudController.php:88-93 | the card import throws no `TypeError` exactly when there is no card, or the theme and every card's three fields are scalars |
| Imports.RepeatedCardKeyImportsOnce | back/src/Controller/Admin/LearningCardCrudController.php:88-95 | two cards under one key of `cartes` give one planned card, from the second, and only the second decides whether the import throws |
| Imports.EntryThemeIgnored | back/src/Controller/Admin/LearningCardCrudController.php:90 | a `theme` inside a card entry is never read: adding one to every entry changes neither the cards nor whether the import throws |
| Imports.CardRows | back/src/Controller/Admin/LearningCardCrudController.php:94 | one card row per card, in order |
| Imports.NewCard | back/src/Controller/Admin/LearningCardCrudController.php:89-93 | a new card holds exactly the four strings its setters received |
| Imports.BuildCards | back/src/Controller/Admin/LearningCardCrudController.php:88-95 | the loop succeeds exactly when every planned card is complete, and then queues one new card per entry, in order, each holding its planned fields |
| Imports.ImportCards | back/src/Controller/Admin/LearningCardCrudController.php:77-120 | no form: the form again and nothing changes; bad JSON: the invalid-JSON flash and nothing changes; under the production error handler, a `TypeError` exactly when the document is a string (reading `cartes` from it throws) or a card field is missing or not scalar, and then nothing is written; otherwise one card per entry of the decoded `cartes` array and one flush, with success or the database's message |
| Imports.PlannedVictims | back/src/Controller/Admin/SNVScenarioCrudController.php:104-111 | one victim per entry of `victimes`, in order |
| Imports.VictimRows | back/src/Controller/Admin/SNVScenarioCrudController.php:110 | one victim row per victim, in order |
| Imports.NewVictim | back/src/Controller/Admin/SNVScenarioCrudController.php:105-109 | a new victim holds exactly the values its setters received and points at the scenario |
| Imports.BuildVictims | back/src/Controller/Admin/SNVScenarioCrudController.php:104-111 | the loop succeeds exactly when every planned victim is complete, and then queues one new victim per entry, in order, each pointing at the scenario |
| Imports.NewScenario | back/src/Controller/Admin/SNVScenarioCrudController.php:99-102 | a new scenario holds exactly the three strings its setters received and has no victims in memory |
| Imports.ImportScenario | back/src/Controller/Admin/SNVScenarioCrudController.php:88-138 | no form or bad JSON: nothing changes; under the production error handler, a `TypeError` exactly when a scenario or victim field is missing or of the wrong type; otherwise the victims and then the scenario are written by one flush, the scenario's own victim list stays empty, and no validation runs |
| Imports.ImportPlannedScenario | back/src/Controller/Admin/SNVScenarioCrudController.php:98-127 | from a decoded plan: a crash exactly when the plan is incomplete, with nothing written; otherwise the scenario and its victims as planned, written after what was already queued, or nothing when the flush is refused |
| Imports.Values | back/src/Controller/Admin/QuizCrudController.php:129 | the values of a list with no missing entry, position by position |
| Imports.Texts | back/src/Controller/Admin/QuizCrudController.php:160-162 | each JSON value as a `string` parameter receives it, position by position |
| Imports.LevelName | back/src/Controller/Admin/QuizCrudController.php:115-118 | no `level` key (or `null`): no level; a scalar level: its string; an array-valued level is read as a `TypeError`, which simplifies Doctrine's `IN` lookup |
| Imports.CategoryNames | back/src/Controller/Admin/QuizCrudController.php:128-129 | only an array-valued `categories` is visited, and then each of its entries as a string; an array-valued entry is read as a `TypeError` |
| Imports.PlannedQuestions | back/src/Controller/Admin/QuizCrudController.php:153-165 | one planned question per entry of `questions`, in order |
| Imports.QuizHeadRequired | back/src/Controller/Admin/QuizCrudController.php:106-109 | a quiz imports only when `title`, `timePerQuestion`, `passingScore` and `modeRandom` are all present, so the entity's defaults never survive an import |
| Imports.HeadAloneImports | back/src/Controller/Admin/QuizCrudController.php:106-153 | under the production error handler, level, categories and questions are optional: the four scalars alone import |
| Imports.NewCategoryRows | back/src/Controller/Admin/QuizCrudController.php:133-137 | the rows for new categories are category rows of the resolved list that were not stored before |
| Imports.NewCategoryRowsAppend | back/src/Controller/Admin/QuizCrudController.php:129-139 | resolving one more category appends its row, if it is new, after the rows already queued |
| Imports.OptionRows | back/src/Controller/Admin/QuizCrudController.php:164 | one option row per option, in order |
| Imports.QuestionBlock | back/src/Controller/Admin/QuizCrudController.php:160-167 | a question's rows are its options' rows followed by its own |
| Imports.QuestionRows | back/src/Controller/Admin/QuizCrudController.php:153-168 | the questions' rows end with the last question's row |
| Imports.QuestionRowsAppend | back/src/Controller/Admin/QuizCrudController.php:153-168 | building one more question appends its block after the rows already queued |
| Imports.NewQuiz | back/src/Controller/Admin/QuizCrudController.php:105-109 | a new quiz holds the four planned scalars, with no questions, categories or level |
| Imports.ResolveLevel | back/src/Controller/Admin/QuizCrudController.php:115-126 | no level named: none; otherwise the stored level of that name, or a new one with that name, which alone is queued |
| Imports.ResolveCategory | back/src/Controller/Admin/QuizCrudController.php:130-138 | the stored category of that name, or a new one with that name that is queued; either way it carries the name |
| Imports.ResolveCategories | back/src/Controller/Admin/QuizCrudController.php:128-140 | one category per name, in order, each the stored one or a new one; a new name given twice gives two distinct new categories; only new ones are queued |
| Imports.LinkCategories | back/src/Controller/Admin/QuizCrudController.php:148-150 | the quiz's categories are the resolved ones without repeats, and each resolved category lists the quiz once more |
| Imports.NewQuestion | back/src/Controller/Admin/QuizCrudController.php:154-158 | a new question holds its three planned values and points at the quiz, with no options in memory |
| Imports.BuildOptions | back/src/Controller/Admin/QuizCrudController.php:160-165 | one new option per text, in order, each holding its text, pointing at the question, with no letter, and queued |
| Imports.BuildQuestion | back/src/Controller/Admin/QuizCrudController.php:154-167 | a question built as planned, its options queued before it |
| Imports.BuildQuestions | back/src/Controller/Admin/QuizCrudController.php:153-168 | the loop succeeds exactly when every planned question is complete, and then builds each question as planned and queues every question after its options |
| Imports.QuizRows | back/src/Controller/Admin/QuizCrudController.php:115-170 | the rows an import queues end with the quiz's own row |
| Imports.LookupRows | back/src/Controller/Admin/QuizCrudController.php:115-140 | the lookups queue at most a new level and one row per category |
| Imports.NewLevelRows | back/src/Controller/Admin/QuizCrudController.php:120-124 | a level row is queued only for a level that was not stored |
| Imports.ResolveLookups | back/src/Controller/Admin/QuizCrudController.php:115-140 | the level and the categories carry the planned names, each the stored one or a new one, and only the new ones are queued, level first |
| Imports.AttachQuiz | back/src/Controller/Admin/QuizCrudController.php:105-150 | a new quiz with the planned scalars, the level, the categories without repeats, each of which lists the quiz once more |
| Imports.LinkQuiz | back/src/Controller/Admin/QuizCrudController.php:105-150 | the quiz, its level and its categories as planned, each found among the stored rows or new, and the new lookups queued |
| Imports.BuildQuiz | back/src/Controller/Admin/QuizCrudController.php:105-170 | everything up to `persist($quiz)` succeeds exactly when the plan is complete, and then the graph is as planned and queued in the order level, categories, options and questions, quiz |
| Imports.ImportPlannedQuiz | back/src/Controller/Admin/QuizCrudController.php:104-184 | from a decoded plan: a crash exactly when the plan is incomplete, with nothing written; otherwise the graph as planned, written by one flush after what was already queued, or nothing when the flush is refused |
| Imports.ImportQuiz | back/src/Controller/Admin/QuizCrudController.php:94-195 | no form or bad JSON: nothing changes; under the production error handler and for scalar level and category names, a `TypeError` exactly when a setter would receive `null` or an array; otherwise the planned graph is written by one flush, and the quiz's own question list stays empty in memory |
| Imports.QuizTypeCheck | back/src/Controller/Admin/QuizCrudController.php:105-168 | no setter of the planned quiz, level, categories, questions or options receives `null` or an array |
| Imports.StringDocumentThrows | back/src/Controller/Admin/QuizCrudController.php:106 | a document that is a string fails the quiz and the scenario type checks, as reading `title` from it throws |
| Imports.CardsTypeCheck | back/src/Controller/Admin/LearningCardCrudController.php:88-95 | every planned card's four setters receive a scalar |
| Imports.ScenarioTypeCheck | back/src/Controller/Admin/SNVScenarioCrudController.php:99-111 | the scenario's three setters and every victim's setters receive values of their types |
| Imports.CardOf | back/src/Controller/Admin/LearningCardCrudController.php:89-93 | the values one card's four setters receive: the top-level theme and the entry's niveau, info and reference |
| Imports.VictimOf | back/src/Controller/Admin/SNVScenarioCrudController.php:105-108 | the values one victim's three setters receive |
| Imports.ScenarioPlanOf | back/src/Controller/Admin/SNVScenarioCrudController.php:99-111 | everything the scenario import reads: the three scenario fields and one victim per entry |
| Imports.QuizHeadOf | back/src/Controller/Admin/QuizCrudController.php:105-109 | the values the quiz's four setters receive |
| Imports.QuestionOf | back/src/Controller/Admin/QuizCrudController.php:153-165 | the values one question's setters and its options' setters receive |
| Imports.QuizPlanOf | back/src/Controller/Admin/QuizCrudController.php:105-168 | everything the quiz import reads, in order: the head, the level, the category names and the questions |
| Json.Lookup | back/src/Controller/Admin/QuizCrudController.php:101 | a key no member carries reads as `null`; any other value read is the value of a member with that key |
| Json.LookupIsLast | back/src/Controller/Admin/QuizCrudController.php:101 | of several members with the same key, `json_decode` keeps the last |
| Json.Get | back/src/Controller/Admin/QuizCrudController.php:106 | `$v['key']` on `null`, a boolean, an integer or a decoded list reads as `null`, and on an object reads the member (a string receiver throws, as `Json.ReadThrows` states) |
| Json.Keys | back/src/Controller/Admin/QuizCrudController.php:101 | the decoded array holds each member name of an object once, every name it holds occurs in the object, and no more entries than members |
| Json.Elements | back/src/Controller/Admin/QuizCrudController.php:153 | `foreach` visits a list's items in order, nothing for a scalar or `null`, and for an object one value per distinct key: the last value given to that key |
| Json.KeysOfDistinctNames | back/src/Controller/Admin/QuizCrudController.php:101 | without a repeated name, the decoded array's keys are the member names in order |
| Json.ElementsOfDistinctNames | back/src/Controller/Admin/QuizCrudController.php:153 | without a repeated name, `foreach` visits every member's value in order |
| Json.RepeatedNameReadOnce | back/src/Controller/Admin/QuizCrudController.php:101 | two members with one name decode to one entry holding the second value |
| Json.AsString | back/src/Entity/Quiz.php:86 | a `string` parameter throws exactly on `null` and arrays; a string passes unchanged and a boolean as "1" or ""; a decoded integer, always within 64 bits, as its decimal numeral (with Json.IntegerTextRoundTrip) |
| Json.AsNullableString | back/src/Entity/Question.php:95 | a `?string` parameter accepts `null` as `null` and otherwise behaves as a `string` parameter |
| Json.IntegerText | back/src/Entity/Quiz.php:98 | only a non-empty string can hold an integer numeral |
| Json.AsInt | back/src/Entity/Quiz.php:98 | an `int` parameter takes an integer unchanged, a boolean as 1 or 0, a string by its numeral exactly when that numeral fits in 64 bits, and throws on `null` and arrays; whatever it accepts fits in 64 bits |
| Json.AsBool | back/src/Entity/Quiz.php:122 | a `bool` parameter throws exactly on `null` and arrays, and reads false exactly for `false`, 0, "" and "0" |
| Json.IntegerTextRoundTrip | back/src/Entity/Quiz.php:98 | a decimal numeral reads back as its integer; a 64-bit integer passed to a `string` parameter becomes that numeral, and the numeral reaches an `int` parameter as the same integer; beyond 64 bits the `int` parameter throws |
| Json.ReadThrows | back/src/Controller/Admin/LearningCardCrudController.php:88 | reading a key of a decoded string throws a `TypeError` under PHP 8 |
| Json.IsSet | back/src/Controller/Admin/QuizCrudController.php:115 | `isset($v['key'])`: a value other than `null` under the key |
| Json.IsArray | back/src/Controller/Admin/QuizCrudController.php:128 | `is_array`: a decoded list or object |
| CatalogueCommon.PrevPage | front/src/app/quiz/page.tsx:165 | the previous page is one less, but never below 1 |
| CatalogueCommon.PrevNextPage | front/src/app/quiz/page.tsx:165-175 | next then previous returns to any page; previous then next returns to any page after the first |
| CatalogueCommon.DifficultyByName | front/src/app/quiz/page.tsx:70 | a difficulty read from its name is the one with that name |
| CatalogueCommon.DifficultyNameRoundTrip | front/src/app/quiz/page.tsx:191-208 | each of the three buttons' difficulties reads back from its name |
| CatalogueCommon.BoolByText | front/src/app/snv/page.tsx:72 | a boolean read from `${b}` is the one written |
| CatalogueCommon.Link | front/src/app/quiz/page.tsx:72 | a start link begins with its route and a `?` |
| CatalogueCommon.ParseParams | front/src/app/quiz/page.tsx:72 | parameters read back one per `&`-separated part |
| CatalogueCommon.SplitWithout | front/src/app/quiz/page.tsx:72 | text without the separator is one part |
| CatalogueCommon.ParamTextRoundTrip | front/src/app/quiz/page.tsx:72 | a `key=value` of plain parts reads back to that key and value |
| CatalogueCommon.SplitOneParam | front/src/app/quiz/page.tsx:72 | one plain parameter is a whole query that reads back |
| CatalogueCommon.SplitParamInFront | front/src/app/snv/page.tsx:72 | a plain parameter joined in front of a readable query is read first |
| CatalogueCommon.SplitJoinParams | front/src/app/snv/page.tsx:72 | any non-empty list of plain parameters, joined by `&`, reads back to the same list |
| CatalogueCommon.LinkRoundTrip | front/src/app/snv/page.tsx:72 | a link built from a plain route and plain parameters reads back to the route and the parameters |
| CatalogueCommon.IntToStringPlain | front/src/app/quiz/page.tsx:72 | a number's decimal text has no `?`, `&` or `=` |
| QuizCatalogue.QuizStartUrl | front/src/app/quiz/page.tsx:72 | a start link goes under `/quiz/` |
| QuizCatalogue.QuizPathPlain | front/src/app/quiz/page.tsx:72 | the route `/quiz/${id}` has no separator |
| QuizCatalogue.QuizPathId | front/src/app/quiz/page.tsx:72 | the route reads back to the quiz id |
| QuizCatalogue.StartLinkParts | front/src/app/quiz/page.tsx:72 | a start link splits into the route and one `difficulty` parameter |
| QuizCatalogue.QuizStartUrlRoundTrip | front/src/app/quiz/page.tsx:72 | a start link reads back to its quiz id and difficulty |
| QuizCatalogue.StartNavigation | front/src/app/quiz/page.tsx:70-75 | a start navigates nowhere exactly when no truthy quiz id is selected (`null` or 0) |
| QuizCatalogue.StartNavigationCarries | front/src/app/quiz/page.tsx:70-75 | with a selected quiz, the start goes to that quiz at the chosen difficulty |
| QuizCatalogue.Catalogue.constructor | front/src/app/quiz/page.tsx:34-40 | the page starts unmounted, loading, without error, on page 1, with nothing selected and the dialog closed |
| QuizCatalogue.Catalogue.Mount | front/src/app/quiz/page.tsx:43-48 | mounting starts the first fetch and changes nothing else |
| QuizCatalogue.Catalogue.Loaded | front/src/app/quiz/page.tsx:50-65 | a fetched page replaces the list and clears the error; a failed response or a throw keeps the list and sets the message (a fixed one for a failed response, the error's own or a default otherwise); loading ends |
| QuizCatalogue.Catalogue.SetPage | front/src/app/quiz/page.tsx:38-68 | a new page number re-runs the fetch once mounted; the same number changes nothing |
| QuizCatalogue.Catalogue.ClickPrev | front/src/app/quiz/page.tsx:164-170 | the previous button moves to the previous page, never below 1, and a page change on a mounted screen starts the fetch of that page |
| QuizCatalogue.Catalogue.ClickNext | front/src/app/quiz/page.tsx:174-179 | the next button, never disabled, always moves one page on and, once mounted, starts the fetch of that page; before mounting the loading flag is untouched |
| QuizCatalogue.Catalogue.Choose | front/src/app/quiz/page.tsx:139-143 | choosing a quiz selects it and opens the dialog |
| QuizCatalogue.Catalogue.SetModalOpen | front/src/app/quiz/page.tsx:185 | the dialog's own requests open or close it and change nothing else |
| QuizCatalogue.Catalogue.HandleQuizStart | front/src/app/quiz/page.tsx:70-75 | a difficulty button navigates to the selected quiz and closes the dialog, or does nothing without a truthy id |
| CatalogueCommon.NextPage | front/src/app/quiz/page.tsx:175 | "Page suivante": `prev + 1` |
| CatalogueCommon.DifficultyName | front/src/app/quiz/page.tsx:70 | the three difficulty names 'easy', 'medium' and 'hard' |
| CatalogueCommon.BoolText | front/src/app/snv/page.tsx:72 | `${b}` of a boolean: "true" or "false" |
| CatalogueCommon.IdTruthy | front/src/app/quiz/page.tsx:71 | `if (selectedQuizId)`: `null` and 0 are false |
| CatalogueCommon.JoinParams | front/src/app/snv/page.tsx:72 | the query parameters as "key=value" joined by '&' |
| CatalogueCommon.ErrorShown | front/src/app/quiz/page.tsx:106 | `{error && ...}`: a non-empty error message |
| QuizCatalogue.QuizPath | front/src/app/quiz/page.tsx:72 | the route `/quiz/${id}` |
| QuizCatalogue.Catalogue.ShowsList | front/src/app/quiz/page.tsx:113 | the list shows once mounted, not loading and with no error shown |
| QuizCatalogue.Catalogue.ShowsPagination | front/src/app/quiz/page.tsx:162 | the page buttons show beside a non-empty list, whatever the number of pages |
| QuizCatalogue.Catalogue.PrevDisabled | front/src/app/quiz/page.tsx:167 | "Page précédente" is disabled on page 1 |
| SnvCatalogue.DefaultTimeOffSlider | front/src/app/snv/page.tsx:41 | the initial 60 seconds is not one of the slider's values (5 to 30 in steps of 5) |
| SnvCatalogue.TotalPagesOf | front/src/app/snv/page.tsx:57 | `Math.ceil(totalItems / 10)` is the fewest ten-scenario pages that hold every scenario |
| SnvCatalogue.SeveralPagesIffMoreThanTen | front/src/app/snv/page.tsx:168 | the page buttons' page condition holds exactly when there are more than ten scenarios |
| SnvCatalogue.VictimsShown | front/src/app/snv/page.tsx:140 | the victim figure is not 0 exactly when the count field or the embedded list's length is truthy; it is the count when that is truthy, otherwise the list's length |
| SnvCatalogue.FindScenario | front/src/app/snv/page.tsx:195 | `find` gives a listed scenario with the selected id, or nothing when no scenario has it |
| SnvCatalogue.TimeFor | front/src/app/snv/page.tsx:71 | hard mode sends 10 seconds whatever the slider says; the other modes send the slider's value |
| SnvCatalogue.SnvStartUrl | front/src/app/snv/page.tsx:72 | a start link goes under `/snv/` |
| SnvCatalogue.SnvPathPlain | front/src/app/snv/page.tsx:72 | the route `/snv/${id}` has no separator |
| SnvCatalogue.SnvParamsPlain | front/src/app/snv/page.tsx:72 | the difficulty, random and time parameters hold no separator |
| SnvCatalogue.SnvLinkParts | front/src/app/snv/page.tsx:72 | a start link splits into its route and its three parameters in order |
| SnvCatalogue.SnvStartUrlRoundTrip | front/src/app/snv/page.tsx:72 | a start link reads back to its scenario id, difficulty, random flag and time |
| SnvCatalogue.StartNavigation | front/src/app/snv/page.tsx:69-75 | a start navigates nowhere exactly when no truthy scenario id is selected (`null` or 0) |
| SnvCatalogue.StartNavigationCarries | front/src/app/snv/page.tsx:69-75 | with a selected scenario, the start goes to it with the chosen difficulty, the random flag and the time, and hard mode always sends 10 |
| SnvCatalogue.UnmovedSliderSendsDefault | front/src/app/snv/page.tsx:41-72 | an easy or medium start before the slider moves sends 60 seconds, a time the slider itself cannot select |
| SnvCatalogue.Catalogue.constructor | front/src/app/snv/page.tsx:33-42 | the page starts unmounted, loading, on page 1 of 1, not random, with 60 seconds, nothing selected and the dialog closed |
| SnvCatalogue.Catalogue.Mount | front/src/app/snv/page.tsx:45-50 | mounting starts the first fetch and changes nothing else |
| SnvCatalogue.Catalogue.Loaded | front/src/app/snv/page.tsx:52-64 | a fetched page replaces the list, sets the page count from the total and clears the error; a throw keeps both and sets the message (the error's own or a default); loading ends |
| SnvCatalogue.Catalogue.SetPage | front/src/app/snv/page.tsx:37-67 | a new page number re-runs the fetch once mounted; the same number changes nothing |
| SnvCatalogue.Catalogue.ClickPrev | front/src/app/snv/page.tsx:170-176 | the previous button moves to the previous page, never below 1, and a page change on a mounted screen starts the fetch of that page |
| SnvCatalogue.Catalogue.ClickNext | front/src/app/snv/page.tsx:180-186 | the next button moves one page on, and is disabled on the last page, so it never passes the page count; a page change on a mounted screen starts the fetch of that page |
| SnvCatalogue.Catalogue.Choose | front/src/app/snv/page.tsx:147-151 | choosing a scenario selects it and opens the dialog |
| SnvCatalogue.Catalogue.SetModalOpen | front/src/app/snv/page.tsx:191 | the dialog's own requests open or close it and change nothing else |
| SnvCatalogue.Catalogue.ToggleRandom | front/src/app/snv/page.tsx:212 | the switch flips random mode and changes nothing else |
| SnvCatalogue.Catalogue.MoveSlider | front/src/app/snv/page.tsx:254-260 | the slider sets the time to one of its values and changes nothing else |
| SnvCatalogue.Catalogue.HandleScenarioStart | front/src/app/snv/page.tsx:69-75 | a difficulty button navigates with the dialog's choices and closes the dialog, or does nothing without a truthy id |
| SnvCatalogue.SentTimeRange | front/src/app/snv/page.tsx:41-72 | whatever the page's state, a start sends 10 seconds, 60 seconds or a slider value |
| SnvCatalogue.SnvPath | front/src/app/snv/page.tsx:72 | the route `/snv/${id}` |
| SnvCatalogue.SnvParams | front/src/app/snv/page.tsx:72 | difficulty, random and time, in the template's order |
| SnvCatalogue.SliderValue | front/src/app/snv/page.tsx:255-258 | the range input's values: 5 to 30 in steps of 5 |
| SnvCatalogue.Catalogue.RendersNothing | front/src/app/snv/page.tsx:77 | nothing renders before the mount effect has run |
| SnvCatalogue.Catalogue.ShowsList | front/src/app/snv/page.tsx:108 | the list shows once mounted, not loading and with no error shown |
| SnvCatalogue.Catalogue.ShowsPagination | front/src/app/snv/page.tsx:168 | the page buttons show for a non-empty list over more than one page |
| SnvCatalogue.Catalogue.PrevDisabled | front/src/app/snv/page.tsx:173 | "Page précédente" is disabled on page 1 |
| SnvCatalogue.Catalogue.NextDisabled | front/src/app/snv/page.tsx:183 | "Page suivante" is disabled on the last page |
| SnvCatalogue.Catalogue.DialogScenario | front/src/app/snv/page.tsx:195-202 | the dialog shows the listed scenario with the selected id, if any |
| QuizResults.PassedScales | front/src/app/quiz/components/QuizResults.tsx:47 | the pass test is a share of the questions: multiplying the score and the question count by the same factor keeps the verdict |
| QuizResults.PassedMonotone | front/src/app/quiz/components/QuizResults.tsx:47 | a higher score never turns a pass into a fail |
| QuizResults.PassedExtremes | front/src/app/quiz/components/QuizResults.tsx:47 | with a 100% pass mark only a full score passes; with 0% every score passes |
| QuizResults.AwardIcons | front/src/app/quiz/components/QuizResults.tsx:58-68 | there are three award icons, and icon `i` is lit exactly when `i < stars` |
| QuizResults.CountLit | front/src/app/quiz/components/QuizResults.tsx:58-68 | no more icons are lit than there are icons |
| QuizResults.AwardIconsLitPrefix | front/src/app/quiz/components/QuizResults.tsx:58-68 | the lit icons come first, and their number is `stars` clamped to 0..3 |
| QuizResults.BadgeInjective | front/src/app/quiz/components/QuizResults.tsx:20-30 | each difficulty shows its own badge |
| QuizResults.CurrentView | front/src/app/quiz/components/QuizResults.tsx:17-101 | the current screen shows the difficulty's badge, the pass verdict, the award icons, the score as "score/total", the rounded percentage and the message, and offers a restart and a way back to `/quiz` |
| QuizResults.LegacyView | src/app/quiz/components/QuizResults.tsx:15-71 | the older screen shows the same verdict, icons, "score/total" text, percentage and message, with no badge, and offers only a restart |
| QuizResults.ViewsAgree | src/app/quiz/components/QuizResults.tsx:15-71 | the two screens agree on everything except the badge and the way back to the list |
| QuizResults.ShownPercent | front/src/app/quiz/components/QuizResults.tsx:76 | with at least one question the percentage shown is between 0 and 100; with none it shows `NaN%` |
| Percent.RoundedPercent | front/src/app/quiz/components/QuizResults.tsx:76 | the shown percentage is finite exactly when there are questions, `NaN` exactly when there are none and no score, and otherwise within half a unit of the exact share, halves rounded up |
| Percent.DivBounds | front/src/app/quiz/components/QuizResults.tsx:76 | integer division brackets the quotient |
| Percent.RoundingUnique | front/src/app/quiz/components/QuizResults.tsx:76 | only one integer lies within half a unit of the exact share, so rounding is determined by it |
| Percent.PercentBounds | front/src/app/quiz/components/QuizResults.tsx:76 | a share of the questions rounds to between 0% and 100%; all of them give 100% and none give 0% |
| Percent.PercentMonotone | front/src/app/quiz/components/QuizResults.tsx:76 | more correct answers never show a smaller percentage |
| QuizResults.Passed | front/src/app/quiz/components/QuizResults.tsx:47 | `score >= passingScore * totalQuestions / 100`, without division |
| QuizResults.Badge | front/src/app/quiz/components/QuizResults.tsx:19-28 | the badge text of each difficulty |
| QuizResults.ScoreText | front/src/app/quiz/components/QuizResults.tsx:74 | "score/total" in decimal |
| Percent.PercentText | front/src/app/quiz/components/QuizResults.tsx:76 | the shown percentage with '%', "Infinity%" or "NaN%" |
| QuizService.TransformQuestion | front/src/app/quiz/services/quizService.ts:10-19 | a question keeps its id, text, correct answer and explanation, and each option in order keeps only its id and text |
| QuizService.Transform | front/src/app/quiz/services/quizService.ts:7-26 | a quiz without a level throws on `level.name`; otherwise the title, times, score, random mode, question count and level name are carried over, and the questions in order |
| QuizService.TransformLosesOnlyLetters | front/src/app/quiz/services/quizService.ts:7-26 | the output determines everything in the quiz except the option letters and the level's other members |
| QuizService.GetQuiz | front/src/app/quiz/services/quizService.ts:29-37 | a failed request reaches the caller unchanged, and a fetched quiz goes through the transform; success exactly when the request succeeds and the quiz has a level |
| QuizService.LegacyQuestionOf | src/app/quiz/services/quizService.ts:8-17 | in the older version a question keeps its id, text and explanation, and its correct answer and option letters are lower-cased, in order |
| QuizService.LegacyTransform | src/app/quiz/services/quizService.ts:5-21 | the older transform throws exactly when some option has no letter; otherwise it keeps title, time and pass mark, and the questions in order |
| QuizService.LegacyAnswerMatchesIgnoringCase | src/app/quiz/services/quizService.ts:12-15 | after the older transform the correct answer names an option exactly when the API's letters agree ignoring case |
| QuizService.LegacyLettersLowerCase | src/app/quiz/services/quizService.ts:12-15 | the older transform's letters and answers are already lower case |
| QuizService.LegacyGetQuiz | src/app/quiz/services/quizService.ts:24-32 | the older `getQuiz` passes a failed request on unchanged and otherwise returns the older transform's result |
| Text.NatToString | front/src/app/glasgow/components/GlasgowTableTraining.tsx:66-67 | a number's decimal text is non-empty, all digits, and starts with 0 only for zero |
| Text.DecimalValueOfNatToString | front/src/app/glasgow/components/GlasgowTableTraining.tsx:66-67 | reading a number's decimal text back gives the number |
| Text.DigitPrefix | front/src/app/glasgow/components/GlasgowTableTraining.tsx:128 | `parseInt` reads the longest run of digits at the front, stopping at the first non-digit |
| Text.DigitPrefixOfDigits | front/src/app/glasgow/components/GlasgowTableTraining.tsx:128 | a run of digits followed by a non-digit or nothing is read exactly |
| Text.TrimStart | front/src/app/glasgow/components/GlasgowTableTraining.tsx:148 | trimming the start leaves text that does not begin with white space |
| Text.TrimEnd | front/src/app/glasgow/components/GlasgowTableTraining.tsx:148 | trimming the end leaves a prefix that does not end with white space |
| Text.ParseInt | front/src/app/glasgow/components/GlasgowTableTraining.tsx:128 | `parseInt` with no radix gives `NaN` exactly when, after the leading white space and the sign, a "0x"/"0X" prefix is followed by no hexadecimal digit, or no such prefix is there and no decimal digit follows |
| Text.ParseIntOfHex | front/src/app/glasgow/components/GlasgowTableTraining.tsx:146 | "0x" followed by hexadecimal digits is read in base 16, and "0x" alone is `NaN` |
| Text.ParseIntOfNumeral | front/src/app/glasgow/components/GlasgowTableTraining.tsx:146 | a signed run of digits with nothing around it is read whole, with its sign |
| Text.ParseIntOfIntToString | front/src/app/glasgow/components/GlasgowTableTraining.tsx:146 | `parseInt` reads back every integer that `String` writes |
| Text.ToLower | src/app/quiz/page.tsx:62 | lower-casing keeps the length and lower-cases character by character |
| Text.ToLowerIdempotent | src/app/quiz/page.tsx:62-66 | lower-casing twice is the same as once |
| Text.Split | front/src/app/glasgow/components/GlasgowTableTraining.tsx:127 | `split` always gives at least one part |
| Text.SplitCons | front/src/app/glasgow/components/GlasgowTableTraining.tsx:127 | a part free of the separator, then the separator, splits off as the first part |
| Text.LexLeqTotal | front/src/app/learning/page.tsx:58 | any two themes are ordered one way or the other |
| Text.LexLeqTransitive | front/src/app/learning/page.tsx:58 | the theme order is transitive |
| Text.LexLeqReflexive | front/src/app/learning/page.tsx:58 | every theme is ordered with itself |
| Text.IntToString | front/src/app/quiz/page.tsx:72 | an integer's decimal text, with '-' before a negative one |
| Text.Trim | front/src/app/glasgow/components/GlasgowTableTraining.tsx:148 | `trim()`: leading and trailing white space removed |
| Text.Contains | src/app/quiz/page.tsx:64-66 | `includes`: the text occurs at some position |
| Text.EndsWith | front/src/app/glasgow/components/GlasgowTableTraining.tsx:74-76 | `endsWith`: the text is a suffix |
| QuizImportFormat.HelpExampleReads | back/src/Form/QuizImportType.php:14-33 | the sample shown as the expected format sets no `modeRandom`, and its one question is the lettered-option question |
| QuizImportFormat.HelpQuestionReads | back/src/Form/QuizImportType.php:19-29 | the sample question has no `question` key, and each of its four options is an array, not a text |
| QuizImportFormat.HelpExampleDoesNotImport | back/src/Form/QuizImportType.php:14-33 | pasting the sample ends in a `TypeError`: `setModeRandom` and the question's `setText` would get `null`, and each option's `setText` an array |
| QuizImportFormat.ImportableHeadReads | back/src/Controller/Admin/QuizCrudController.php:106-109 | the corrected sample gives the four quiz setters values of their types, and `false` to `setModeRandom` |
| QuizImportFormat.ImportableLookupsRead | back/src/Controller/Admin/QuizCrudController.php:115-131 | the corrected sample names a level and gives every category name as text |
| QuizImportFormat.ImportableQuestionsRead | back/src/Controller/Admin/QuizCrudController.php:153 | the corrected sample's one question is the one written the importer's way |
| QuizImportFormat.ImportableQuestionTexts | back/src/Controller/Admin/QuizCrudController.php:155-157 | the corrected question gives its text, answer and explanation a string each |
| QuizImportFormat.ImportableQuestionOptions | back/src/Controller/Admin/QuizCrudController.php:160-162 | the corrected question's four options are strings |
| QuizImportFormat.ImportableExampleImports | back/src/Controller/Admin/QuizCrudController.php:104-171 | the corrected sample imports without a `TypeError`, and the quiz it builds is not random |

## Left out

- Network, HTTP and the browser. The `fetch` and `axios` calls, `learningCardService` and `snvService` are not modelled; each fetch's outcome is a parameter. `router.push` and `window.open` are not called; the model returns the target URL. `LearningCardApiController` is not part of this model.
- React and rendering. The model keeps the state that decides what renders and the predicates that decide it. Hooks, animation, CSS, and purely presentational components and pages are not modelled. Effects become explicit method calls: a mount, a fetch that ends, a timer tick.
- Randomness. `Math.random` becomes a free choice. The Glasgow draw picks any set of the right size from the available cells. The shuffle picks any index in range at each step. Nothing is claimed about the distribution; a random comparator inside `sort` is not uniform anyway.
- The quiz and SNV session screens (timer, answering, advancing, restarting) are not part of this model. Only their entry links and the results screen are modelled.
- Floating point. Ratios, thresholds and percentages are restated with integer cross-multiplication.
- Percent.RoundedPercent: rounds the exact share of questions. JavaScript computes `score / total * 100` in floating point, which can fall just below an exact half and round down where this model rounds up.
- Text.ToLower: covers ASCII and the Latin-1 letters plus Œ and Ÿ. JavaScript's full Unicode case mapping is not modelled.
- Text.LexLeqTotal: themes are ordered by code point. `localeCompare` uses the browser's locale collation, which is not modelled.
- Text.ParseInt: skips ASCII white space, U+00A0 and U+FEFF before the sign. JavaScript also skips the other Unicode space separators and line terminators, which are not modelled.
- Json.AsInt: a string reaches an `int` parameter only as a plain integer numeral. PHP also accepts surrounding white space, numerals with a fraction, and numerals followed by other text (with a warning); those are not modelled.
- JSON numbers with a fraction or an exponent, and integers beyond 64 bits (which `json_decode` turns into floats), are not part of the `Json` datatype. Neither is `json_decode`'s parsing of the text; the action receives the decoded tree, or the fact that decoding failed.
- The form's own validation: the import form's `isSubmitted() && isValid()` is modelled as one case, the request `NotSubmitted`. The form's validation rules are Symfony's and are not modelled.
- Imports.ImportQuiz: on an uncaught `TypeError` the model states only that nothing is written and no flush happens. Objects built in memory before the error are discarded with the request and are not described. Its `Crash` case is exact only for scalar level and category names (see Imports.LevelName and Imports.CategoryNames). It follows the production error handler, where a PHP warning (an undefined key, `foreach` over `null`) is only logged. With `kernel.debug` on, Symfony's `php_errors.throw` default turns those warnings into an `\ErrorException`, which `catch (\Exception)` at back/src/Controller/Admin/QuizCrudController.php:180 turns into the danger flash. A missing key then ends with that flash instead of a `TypeError`, and a quiz without `questions` fails instead of importing (Imports.HeadAloneImports holds only in production).
- Imports.ImportCards: follows the production error handler as Imports.ImportQuiz does. With `kernel.debug` on, a missing `theme`, `cartes` or card field is a warning thrown as `\ErrorException` and caught at back/src/Controller/Admin/LearningCardCrudController.php:105, giving the danger flash instead of the `TypeError` (or the empty import) the model states.
- Imports.ImportScenario: follows the production error handler as Imports.ImportQuiz does. With `kernel.debug` on, a missing key is caught at back/src/Controller/Admin/SNVScenarioCrudController.php:123 as a thrown warning, giving the danger flash instead of the `TypeError` (or the scenario without victims) the model states.
- Imports.HeadAloneImports: holds under the production error handler only. In debug mode the undefined `questions` key at back/src/Controller/Admin/QuizCrudController.php:153 is thrown as a warning, and the import ends with the danger flash.
- Imports.LevelName: an array-valued `level` is read as a `TypeError`. In the source the array reaches `findOneBy(['name' => $levelName])` (back/src/Controller/Admin/QuizCrudController.php:117-118), which Doctrine turns into a `name IN (...)` lookup. When a stored level's name is among the array's values, the quiz imports with that level, and only when none matches does `setName` throw. Which of several matching rows Doctrine returns, and how it binds non-string elements, are not modelled.
- Imports.CategoryNames: an array-valued entry of `categories` is read as a `TypeError` in the same way. In the source a stored category whose name is among the entry's values is found and linked (back/src/Controller/Admin/QuizCrudController.php:130-131), and only an unmatched entry throws at `setName`.
- Imports.LinkQuiz: looks up the level and categories before `new Quiz()`, where the source creates the quiz first. The lookups only read stored rows and append to the queue, so the order cannot be observed.
- EntityStore.FindLevel: compares names exactly. A database collation that ignores case or accents would find more levels; the same holds for EntityStore.FindCategory.
- Doctrine's generated ids, cascades, `orphanRemoval` and the schema are not modelled. The entity manager keeps the persisted objects in order, and a flush writes them all or nothing.
- Validation constraints are predicates on the entities. No import runs them, as in the source, so invalid scenarios and victims are stored as given.
- GlasgowTraining.DrawCells: requires at least one cell to hide. The slider's minimum is 1, the four presets are positive, and the initial value is 8, so no handler passes less; the same holds for GlasgowTraining.Trainer.GenerateHiddenCells.
- GlasgowTraining.Trainer.SetNumCellsToHide: requires a value between 1 and the mode's maximum. Those are the slider's bounds, and every preset lies within them. It also requires the trainer's invariant (`Valid`), which the constructor establishes and every method keeps.
- LearningBar.Bar.Loaded: requires the state before the first fetch ends. The fetch runs once, on mount.
- LearningBar.Bar.StepNext: requires at least one card, because the arrows only render with cards; the same holds for LearningBar.Bar.StepPrev.
- LearningPage.LearningList.ChangeItemsPerPage: requires one of the four listed sizes, the only values the select offers.
- LearningPage.LearningList.GoToPage: requires a page between 1 and the page count, the only buttons rendered.
- SnvCatalogue.Catalogue.MoveSlider: requires one of the slider's values (5 to 30 in steps of 5).
- The other admin controllers, the form types except the quiz import sample, the repositories, the migrations, the console command, `Referenciel` and the plain getters are outside this model.

## Findings

| source | as written | input that shows it | evidently intended | confidence | as-written member | corrected member |
|---|---|---|---|---|---|---|
| back/src/Form/QuizImportType.php:14-33 | The form's help shows a sample with no `modeRandom`. It puts the question text under `text`, where `importQuiz` reads `question`, and it gives each option as an object `{text, id}`, where the importer expects the text. | Pasting the sample as shown passes `null` to `setModeRandom(bool)` (back/src/Controller/Admin/QuizCrudController.php:109). That throws a `TypeError`, which `catch (\Exception $e)` at line 180 does not catch, so the request fails. | A sample that imports: `modeRandom` present, the text under `question`, and the options as plain strings. | not executed | QuizImportFormat.HelpExampleDoesNotImport | QuizImportFormat.ImportableExampleImports |
