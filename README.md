# Korean name recommender — verified model of its core

This project is a Dafny model of the parts of the Korean-name recommender that have behaviour worth stating. The properties it states about them are proved.

- **Character tokeniser** (`backend/train_dual_encoder.py`), in module `Tokenizer`.
  - `build_charset` numbers the distinct characters of the training names from 2, in sorted order. Id 0 is the pad token and id 1 the unknown token.
  - `encode` truncates a name and looks each character up.
  - `pad` right-pads the result with the pad id.
  - The constants `PAD_ID`, `UNK_ID`, `MAX_LEN_EN` (15) and `MAX_LEN_KO` (4) are modelled too.
- **Dual-encoder inference** (`backend/dual_infer.py`), in module `DualInfer`.
  - At load time, every Korean reference name is tokenised and embedded once. The results go into three lists kept in lockstep.
  - `recommend` lower-cases and encodes the English name and scores it against every cached embedding. `heapq.nlargest` then selects the k best rows, and their payloads are returned in that order.
  - The interpreter is an opaque deterministic function of its two input tensors. Scores are exact reals.
- **Birth-name ranking** (`backend/korean_girls_name_summary.py`), in module `NameSummary`.
  - `extract_year_from_filename` reads a year range from a spreadsheet's file name.
  - `clean_data` drops rows without a name, summary rows (기타/합계/전체) and rows whose rank is not numeric. It then reads the counts as numbers.
  - `create_overall_ranking` sums the counts per name, sorts by total (largest first) and numbers the ranks 1..n.
  - `create_period_analysis` does the same per year range.
  - The analyser object keeps both results in its fields.
- **Front-end page state** (`frontend/src/App.jsx`), in module `NameApp`.
  - `validateName` is a three-rule validator with fixed messages.
  - The `App` class holds the component's state. Its methods are `handleChange`, `handleSubmit`, `handleSelect`, `saveCurrent` and `deleteSaved`.
  - Requests to the back end are appended to an `outbox` field. The answer of the conversion request is a parameter.

Module `Text` holds the ASCII parts of `str.lower`/`toLowerCase`, of `trim` and of digit classes. Module `Wrappers` holds `Option`.

`heapq.nlargest(k, …)` returns an empty list for k ≤ 0, and the model does the same: the code does not reject k ≤ 0, and the model follows the code.

## Model

| member | source | states |
|---|---|---|
| Text.Lower | backend/dual_infer.py:42 | the lower-cased name has the same length; each ASCII capital becomes its small letter and every other character is kept |
| Text.Trim | frontend/src/App.jsx:57 | `trim` removes only leading and trailing whitespace: the result is a slice of the input, with whitespace only before and after it; it neither starts nor ends with whitespace; it is empty exactly when the input is all whitespace |
| Tokenizer.CharsOf | backend/train_dual_encoder.py:29-31 | a character is in the collected set exactly when it occurs in one of the texts |
| Tokenizer.SortedChars | backend/train_dual_encoder.py:32 | `sorted(chars)` lists every character of the set exactly once, in strictly increasing order |
| Tokenizer.BuildCharset | backend/train_dual_encoder.py:28-32 | the loop that grows the character set builds exactly the charset of the texts |
| Tokenizer.CharsetKeys | backend/train_dual_encoder.py:29-31 | every character that occurs in any input text is a key of the charset, and nothing else is |
| Tokenizer.CharsetIdRange | backend/train_dual_encoder.py:32 | ids are exactly 2 .. (number of characters) + 1, each of them used, so the vocabulary has that many ids plus the two reserved ones |
| Tokenizer.CharsetOrdered | backend/train_dual_encoder.py:32 | ids follow character order, so distinct characters get distinct ids |
| Tokenizer.CharsetAvoidsReservedIds | backend/train_dual_encoder.py:32-37 | no character is given the pad id 0 or the unknown id 1 |
| Tokenizer.Encode | backend/train_dual_encoder.py:39-40 | the encoding has min(len(text), max_len) ids; id i is the charset's id of character i, or the unknown id when it is missing |
| Tokenizer.EncodeNeverPads | backend/train_dual_encoder.py:39-40 | with a charset that never uses id 0, an encoding never contains the pad id |
| Tokenizer.Pad | backend/train_dual_encoder.py:42-43 | a sequence no longer than max_len is extended with pad ids up to max_len, keeping it as a prefix; a longer one is returned unchanged |
| Tokenizer.PadIdempotent | backend/train_dual_encoder.py:42-43 | padding an already padded sequence changes nothing |
| Tokenizer.StripPadding | backend/train_dual_encoder.py:42-43 | the inverse of padding: the longest prefix that does not end in the pad id, everything after it being pad ids |
| Tokenizer.StripPadInverse | backend/train_dual_encoder.py:42-43 | stripping the padding of a padded sequence that does not end in the pad id gives the sequence back |
| Tokenizer.Vectorize | backend/train_dual_encoder.py:45-46 | `pad(encode(...))` has exactly max_len ids and starts with the encoding |
| Tokenizer.VectorizeRoundTrip | backend/train_dual_encoder.py:45-46 | with a training charset, the padded encoding has length max_len and stripping its pad ids recovers the encoding |
| Tokenizer.TrainingTextsHaveNoUnknown | backend/train_dual_encoder.py:34-46 | encoding any training text with the charset built from those same texts produces no unknown id |
| Tokenizer.LowerAll | backend/train_dual_encoder.py:34 | the charset of the English names is built from the names lower-cased one by one |
| DualInfer.DotSnoc | backend/dual_infer.py:49 | the dot product of equally long vectors gains a[i] * b[i] for each further common index: it is the sum over all common indices |
| DualInfer.DotSymmetric | backend/dual_infer.py:49 | a row's score is the same whichever side of the product the query is on |
| DualInfer.Similarities | backend/dual_infer.py:49 | `embeddings_ko @ emb_en` gives one score per cached row, score i being the dot product of row i with the query |
| DualInfer.InsertByScore | backend/dual_infer.py:50 | inserting a new, larger index into a ranked index list keeps the list ranked by score (ties by index) and adds exactly that index |
| DualInfer.RankOrder | backend/dual_infer.py:50 | `sorted(range(n), key=sims.take, reverse=True)`: every index below n exactly once, by non-increasing score, equal scores in index order |
| DualInfer.NLargest | backend/dual_infer.py:50 | the selection has min(k, N) indices (none for k ≤ 0), all distinct and in [0, N), scores non-increasing, equal scores with the lower index first |
| DualInfer.NLargestUnselected | backend/dual_infer.py:49-50 | an index left out scores no higher than any selected index and, on a tie, comes after it |
| DualInfer.NLargestAll | backend/dual_infer.py:50 | with k at least the table size, every index is selected |
| DualInfer.CacheReferenceVectors | backend/dual_infer.py:23-29 | the vectors and entries lists are appended together: entry i is reference row i and vector i is its padded encoding of length MAX_LEN_KO |
| DualInfer.EmbedReferences | backend/dual_infer.py:32-38 | exactly one embedding per vector, in the same order, each the encoder's output with the English input held at zero |
| DualInfer.Payload | backend/dual_infer.py:53-58 | a result carries the Korean name, meaning and gender of its reference row |
| DualInfer.NameRecommender.constructor | backend/dual_infer.py:23-38 | loading needs at least one reference row, since stacking no embeddings fails; after loading, the charsets are those built from the training names and the three cached lists are aligned row by row with the reference rows |
| DualInfer.NameRecommender.QueryVector | backend/dual_infer.py:42 | the query vector has length MAX_LEN_EN |
| DualInfer.NameRecommender.TopIndices | backend/dual_infer.py:42-50 | the query's selection has min(k, N) distinct indices of cached rows (none for k ≤ 0) |
| DualInfer.NameRecommender.Recommend | backend/dual_infer.py:41-60 | min(k, N) results (none for k ≤ 0); result j is the payload of the entry at the j-th selected index; the cache is only read |
| DualInfer.NameRecommender.SelectionIgnoresCase | backend/dual_infer.py:42 | two names equal up to letter case get the same selection |
| DualInfer.ThreeRowScenario | backend/dual_infer.py:49-50 | embeddings [1,0], [0,1], [0.7071,0.7071] against the query [1,0] select rows 0 then 2 for k = 2 |
| DualInfer.TieKeepsTableOrder | backend/dual_infer.py:50 | scores [0.5, 0.9, 0.5] give the order 1, 0, 2: equal scores keep table order |
| NameSummary.FindParenRange | backend/korean_girls_name_summary.py:105 | `re.search` for "(YYYY~YYYY)" or "(YYYY-YYYY)": the leftmost position where the pattern matches, or none when it matches nowhere |
| NameSummary.FindEightDigits | backend/korean_girls_name_summary.py:109 | `re.search` for eight digits: the leftmost position of eight consecutive digits, or none |
| NameSummary.ExtractYearFromFilename | backend/korean_girls_name_summary.py:99-112 | the leftmost parenthesised range gives "YYYY-YYYY"; failing that, the leftmost eight digits give first four, '-', last four; "Unknown" exactly when neither pattern occurs; every result is "Unknown" or nine characters with '-' at position 4 and digits elsewhere |
| NameSummary.ExtractYearParenthesised | backend/korean_girls_name_summary.py:104-107 | a name whose first '(' opens "(YYYY~YYYY)" or "(YYYY-YYYY)" yields "YYYY-YYYY", whatever follows |
| NameSummary.ExtractYearShippedFileName | backend/korean_girls_name_summary.py:29 | '상위 출생신고이름현황(2008~2009) 여.xls' yields "2008-2009" |
| NameSummary.ExtractYearEightDigits | backend/korean_girls_name_summary.py:108-111 | without any '(', the first eight consecutive digits yield the first four, '-', the last four |
| NameSummary.ExtractYearNoDigits | backend/korean_girls_name_summary.py:105-112 | a name without digits yields "Unknown" |
| NameSummary.ToNumeric | backend/korean_girls_name_summary.py:88-91 | `pd.to_numeric(errors='coerce')` gives a number or NaN; it keeps a number and NaN as they are; a text reads as a number exactly when it is a non-empty digit string, and then as that string's decimal value |
| NameSummary.Filter | backend/korean_girls_name_summary.py:82-88 | a boolean-mask selection keeps exactly the rows that pass the test, and no more rows than it is given |
| NameSummary.FilterCounts | backend/korean_girls_name_summary.py:82-88 | a row passing the test is kept as many times as it occurs, any other row never |
| NameSummary.ConvertCounts | backend/korean_girls_name_summary.py:91 | every row keeps its place, with its count read as a number |
| NameSummary.CleanData | backend/korean_girls_name_summary.py:77-97 | every kept row has a name that is not a summary name and a numeric rank, and its count is a number or NaN; no rows are added |
| NameSummary.ThreeFiltersAreOne | backend/korean_girls_name_summary.py:82-88 | the three successive filters keep exactly the rows that pass all three tests |
| NameSummary.FilterIsSubsequence | backend/korean_girls_name_summary.py:82-88 | a filter keeps an order-preserving subsequence of its input |
| NameSummary.FilterAllKept | backend/korean_girls_name_summary.py:82-88 | a filter that every row passes changes nothing |
| NameSummary.CleanDataKeepsOrderedSubsequence | backend/korean_girls_name_summary.py:82-91 | the cleaned rows are the rows passing all three tests, in their original order, with counts read as numbers |
| NameSummary.CleanDataIdempotent | backend/korean_girls_name_summary.py:82-91 | cleaning cleaned rows changes nothing |
| NameSummary.ToRecords | backend/korean_girls_name_summary.py:68-69 | every cleaned row becomes a record with its name and count, tagged with the year range |
| NameSummary.SheetRecords | backend/korean_girls_name_summary.py:65-69 | record i of a sheet holds the name and count of cleaned row i, one record per cleaned row; each carries the year range read from the file name, and none is a summary row |
| NameSummary.Unique | backend/korean_girls_name_summary.py:166 | `unique()` lists each value exactly once, and only values that occur |
| NameSummary.GroupByName | backend/korean_girls_name_summary.py:146 | group-by-sum: one row per distinct name, the names being exactly those of the input, each holding the sum of that name's counts |
| NameSummary.InsertDesc | backend/korean_girls_name_summary.py:147 | inserting into a table sorted by decreasing total keeps it sorted and adds exactly the new row |
| NameSummary.SortDesc | backend/korean_girls_name_summary.py:147 | `sort_values(ascending=False)` is a permutation with non-increasing totals |
| NameSummary.InsertDescKeepsDistinctNames | backend/korean_girls_name_summary.py:147 | inserting a row with a new name keeps the names distinct |
| NameSummary.SortDescKeepsDistinctNames | backend/korean_girls_name_summary.py:147 | sorting keeps names distinct |
| NameSummary.SameElementsSameNames | backend/korean_girls_name_summary.py:147 | a permutation has the same names and the same rows |
| NameSummary.RankedTotals | backend/korean_girls_name_summary.py:146-147 | one row per distinct name, holding that name's total, largest total first |
| NameSummary.OverallRanking | backend/korean_girls_name_summary.py:146-148 | one row per distinct name of the combined data, holding the sum of its counts over all rows; totals non-increasing; rank of row i is i + 1 |
| NameSummary.PeriodRows | backend/korean_girls_name_summary.py:167 | the rows of one year range are exactly the input rows carrying it |
| NameSummary.PeriodRowsCounts | backend/korean_girls_name_summary.py:167 | a row of the year range is kept as many times as it occurs, a row of another range never |
| NameSummary.PeriodRowsInOrder | backend/korean_girls_name_summary.py:167 | the rows of a year range keep their order in the combined data |
| NameSummary.PeriodTotalOnlyThatPeriod | backend/korean_girls_name_summary.py:167-168 | a name's total within a period counts exactly that period's rows with that name |
| NameSummary.PeriodRanking | backend/korean_girls_name_summary.py:167-169 | one row per distinct name of the period, holding its total over that period only, largest first |
| NameSummary.PeriodSetMembers | backend/korean_girls_name_summary.py:166 | the year ranges iterated over are exactly those occurring in the data |
| NameSummary.PeriodRankingsSpec | backend/korean_girls_name_summary.py:166-170 | the dictionary filled for a list of year ranges has exactly those ranges as keys, each mapped to its own ranking |
| NameSummary.FillRankings | backend/korean_girls_name_summary.py:164-170 | the loop over a list of year ranges builds the dictionary that maps each of them to its ranking |
| NameSummary.RankPeriods | backend/korean_girls_name_summary.py:164-170 | the loop builds a dictionary whose keys are exactly the year ranges of the data, each mapped to that period's ranking |
| NameSummary.NamesAnalyzer.constructor | backend/korean_girls_name_summary.py:136 | the analyser starts from the combined rows, with no rankings computed yet |
| NameSummary.NamesAnalyzer.CreateOverallRanking | backend/korean_girls_name_summary.py:139-155 | returns the overall ranking, stores it in the analyser, and changes nothing else |
| NameSummary.NamesAnalyzer.CreatePeriodAnalysis | backend/korean_girls_name_summary.py:157-173 | returns a dictionary whose keys are exactly the year ranges of the combined data, each mapped to that period's ranking, stores it in the analyser, and changes nothing else |
| NameApp.Utf16Length | frontend/src/App.jsx:58 | JavaScript's `length` counts UTF-16 code units: at least one and at most two per character |
| NameApp.BasicPlaneLength | frontend/src/App.jsx:58 | without characters outside the Basic Multilingual Plane, `length` is the number of characters |
| NameApp.ValidateName | frontend/src/App.jsx:56-61 | empty exactly when the name has a non-blank character, at most 30 UTF-16 code units before trimming, and only ASCII letters and spaces; otherwise the message of the first rule broken, in the order blank, too long, bad character |
| NameApp.ValidNameShape | frontend/src/App.jsx:56-61 | an accepted name has 1 to 30 characters, at least one of them a letter |
| NameApp.NewItem | frontend/src/App.jsx:116-120 | the saved item holds the untrimmed typed name, the candidate's fields and the time stamp, and no id |
| NameApp.Save | frontend/src/App.jsx:105-122 | the corrected save, whose duplicate test trims both names: a duplicate leaves the list unchanged; otherwise the new item is put first and the old items follow unchanged, in order |
| NameApp.SaveAsWritten | frontend/src/App.jsx:108-122 | the same as Save, with the duplicate test as the code writes it |
| NameApp.SaveRemembers | frontend/src/App.jsx:108-115 | after a save the choice counts as a duplicate |
| NameApp.SaveIdempotent | frontend/src/App.jsx:105-122 | saving the same choice a second time leaves the list as after the first save |
| NameApp.SaveKeepsNoDuplicates | frontend/src/App.jsx:105-122 | saving keeps the list free of entries that stand for the same choice |
| NameApp.PaddedNameSavedTwice | frontend/src/App.jsx:108-117 | with the duplicate test as written, saving " Bob" twice leaves two entries |
| NameApp.SaveAsWrittenKeepsNoRepeats | frontend/src/App.jsx:105-122 | saving with the test as written keeps the invariant it maintains: no entry would be refused by that test against an older entry |
| NameApp.SaveAsWrittenIdempotentOnTrimmedName | frontend/src/App.jsx:105-122 | for a name typed without surrounding blanks, the test as written refuses a second save of the same choice |
| NameApp.AsWrittenAgreesOnTrimmedNames | frontend/src/App.jsx:108-111 | when every stored name is already trimmed, the test as written agrees with the corrected test |
| NameApp.RemoveAt | frontend/src/App.jsx:130 | filtering out index idx removes one element when idx is in range and none otherwise |
| NameApp.RemoveAtSlices | frontend/src/App.jsx:130 | removal drops exactly the element at idx and keeps the others in order; an out-of-range idx changes nothing |
| NameApp.RemoveKeepsNoDuplicates | frontend/src/App.jsx:130 | deleting keeps the list free of duplicates |
| NameApp.RemoveKeepsNoRepeatsAsWritten | frontend/src/App.jsx:130 | deleting keeps the invariant of the test as written |
| NameApp.SaveThenDeleteRestores | frontend/src/App.jsx:121-130 | deleting entry 0 right after saving a new choice restores the previous list |
| NameApp.DeleteRequest | frontend/src/App.jsx:133-135 | a back-end delete is requested exactly when the entry exists and has a non-zero id, and it names that id |
| NameApp.App.constructor | frontend/src/App.jsx:23-30 | the page starts with an empty name, no candidates, no error, index 0 and an empty saved list |
| NameApp.App.HandleChange | frontend/src/App.jsx:84-88 | the name is replaced and the error becomes its validation message; nothing else changes |
| NameApp.App.HandleSubmit | frontend/src/App.jsx:63-81 | an invalid name only sets the error; a valid one is sent for conversion; a successful answer replaces the candidates, selects index 0 and clears the error; a failure sets the error and keeps the candidates |
| NameApp.App.HandleSelect | frontend/src/App.jsx:91-93 | selecting a listed candidate sets the index and changes nothing else |
| NameApp.App.SaveCurrent | frontend/src/App.jsx:105-126 | without candidates, nothing changes; otherwise the list becomes SaveAsWritten of the selected candidate under the typed name, the duplicate test being the page's own; a save request is sent exactly when that test finds no duplicate; no entry would be refused by that test against an older one |
| NameApp.App.DeleteSaved | frontend/src/App.jsx:128-135 | the list loses exactly entry idx (nothing for an out-of-range idx); the delete request is sent only for an entry with an id; no entry would be refused by the duplicate test against an older one |
| NameApp.SaveThenDeleteFlow | frontend/cypress/e2e/save_flow.cy.js:4-18 | typing "Bob", fetching one candidate and saving it gives one entry; deleting entry 0 gives none |

## Left out

- The TFLite interpreter is not modelled. It is a deterministic function of its two input tensors. The Keras model, training and conversion are not part of this model (floating-point numerics).
- Similarity scores are exact reals. Floating-point rounding in the dot product is not modelled.
- DualInfer.Payload: `eraScore` is the row's trend score itself. Rounding to two decimals (backend/dual_infer.py:57) is a floating-point operation and is left out.
- The database query that yields the reference rows is a constructor parameter. The constructor also takes the training names and builds both charsets from them.
- DualInfer.NameRecommender.constructor: requires at least one reference row. With an empty `name_trends` table, `np.vstack` of no embeddings (backend/dual_infer.py:38) raises and the module does not load, so that case has no recommender to model.
- NameSummary.ToNumeric: only unsigned ASCII digit strings are read as numbers. Decimals, signs and exponents are not recognised, although pandas would read them. Counts are natural numbers.
- NameSummary.SortDesc: the order among equal totals is not specified, because pandas' default sort is not stable. The model uses an insertion sort and proves only facts that hold for any order of ties.
- NameSummary.GroupByName: rows appear in order of first appearance rather than pandas' sorted key order. That order is not observable after the sort, except among ties.
- The 전체비율 (share) column is not modelled: parsing it (backend/korean_girls_name_summary.py:93-95) and the percentages of the overall ranking (150-152) are floating point.
- `read_excel_file`, `load_all_files`, `save_results` and the visualisations are file and Excel I/O. The header-row search is part of that, as is concatenating the sheets. The analyser's constructor takes the combined rows.
- Text.Lower, Text.Trim, Text.IsDigit: only ASCII is modelled. Python's `\d` and `lower()` and JavaScript's `trim` and `toLowerCase` cover more of Unicode.
- NameApp.App.HandleSubmit: the call is atomic. The intermediate `loading = true` state is not observed, and neither is user input arriving while the request is pending. The answer of the request is a parameter.
- The wrapping of a non-array answer into a list (frontend/src/api.js) is not part of this model. Neither are the fetch calls themselves, which are recorded in `outbox`.
- `localStorage` loading and syncing, the duplicate `alert`, speech playback, the view switch and rendering are UI effects and are left out. The saved list starts empty.
- The name-meaning generator (backend/name_logic.py) is not part of this model. Its output depends on library random-number internals.
- The Flask routes, the database schema and the other scripts are not part of this model.

## Findings

| source | as written | input that shows it | evidently intended | confidence | as-written member | corrected member |
|---|---|---|---|---|---|---|
| frontend/src/App.jsx:108-117 | the duplicate test compares the stored English name lower-cased but untrimmed with the typed name trimmed and lower-cased, while the stored name is the untrimmed typed name | type " Bob" (leading space, accepted by the validator) and save the same candidate twice: the list holds two entries for it | saving the same choice again is refused, so compare both names trimmed | medium, not executed | NameApp.PaddedNameSavedTwice | NameApp.SaveIdempotent |

The `App` class's `SaveCurrent` runs the test as written, so its saved list can hold " Bob" twice. Its invariant is the weaker one that test keeps (NameApp.SaveAsWrittenKeepsNoRepeats). The corrected `Save` keeps the list free of duplicates (NameApp.SaveKeepsNoDuplicates). Where every stored name is already trimmed, the two tests agree (NameApp.AsWrittenAgreesOnTrimmedNames).
