# Career-graph job seeker: a Dafny model of its deterministic logic

The application helps a user plan a career. The web front end has three parts:

- a four-step survey (basic information, a twelve-question personality test, skills and preferences, a summary);
- a career graph of skills and jobs, whose edges carry a "necessity" weight;
- a flow-chart view of that graph.

A Python back end recommends job postings from a CV. It asks a language model for target roles and search queries, searches the web, de-duplicates the hits by URL, has each hit summarised and scored, and prints the best postings as JSON and as a Markdown table.

This project models the deterministic logic around those pieces and proves what it promises:

- **`Steps`.** The step counter, clamped to 0..3, and JavaScript's `Math.round` on a ratio of integers.
- **`Personality`.** The MBTI-style code. Each pole's score is the sum of its answers, and a tie gives `X`. Also the percentage bars.
- **`SkillImport`.** The skills importer. It splits on commas, trims, lower-cases and drops empty tokens, then looks each token up in the alias table and merges the ids into the learned-skill set. It also models the lookup as the source performs it (see Findings).
- **`Checkbox`.** The two multi-select toggles: `handleCheckboxChange` of the survey page and `setVal` of the questionnaire.
- **`SurveyPage`.** The survey page as a class, with mutable state and `next`, `back`, `handleCheckboxChange` and the summary code.
- **`Questionnaire`.** The stand-alone questionnaire as a class. It has validation on, a progress bar, `resetAll` and `fmtList`.
- **`Graph`, `DemoGraph`, `StarterGraph`.** The graph records and their well-formedness predicates, checked on the two shipped data sets:
  - ids are unique;
  - edges join existing nodes;
  - necessities lie in [0,1] and values in 0..100;
  - time matches kind;
  - the jobs are sinks;
  - the graph is acyclic, shown by an explicit layering.
- **`FlowTransform`.** The conversion to renderer records:
  - the type tag;
  - stroke width = necessity·4+1;
  - the move from the layout engine's centre coordinate to a top-left corner, written in place on renderer-node objects.
- **`JobSearch`, `JobRanking`.** The recommender's pipeline:
  - fallback queries and role truncation;
  - the hit filter with its 5000-character cut;
  - order-preserving de-duplication by URL;
  - the summarise-and-score loop;
  - the stable sort by descending fit, done in place on an array and proved equal to any stable sort;
  - top-k slicing with Python semantics;
  - the Markdown row.

Language-model replies, web-search results and scores are function parameters of the model. So is the layout engine's placement.

Three points about the source shape the model:

- The graph files hold only static node and edge tables, and the transformation of those tables into renderer records. They contain no recommendation or path-finding code, so the model covers the tables and the transformation.
- Survey validation on the survey page is switched off (every check is commented out), so "Next" is never blocked there. The stand-alone questionnaire keeps its checks.
- The alias lookup ignores case only because the input is lower-cased first and every key of the table is lower case (`SkillImport.AliasesAreLowerCase`). The lookup itself is case-sensitive.

## Model

| member | source | states |
|---|---|---|
| Steps.NextStep | frontend/src/pages/SurveyPage.jsx:76-77 | One page on from a form page; from the summary (or beyond) the result is the summary; never past step 3 |
| Steps.PrevStep | frontend/src/pages/SurveyPage.jsx:82 | One page back from a later page, 0 from page 0 |
| Steps.NextPrevInverse | frontend/src/question.js:157-161 | Back undoes Next from a form page, and Next undoes Back from pages 1..3 |
| Steps.AdvanceReachesSummary | frontend/src/question.js:153-158 | Unblocked presses of Next walk one page at a time, reach the summary after enough presses and stay within 0..3 |
| Steps.RoundRatio | frontend/src/question.js:151 | `Math.round(p/q)`: the integer nearest p/q with halves rounded up, stated as bounds on 2·r·q |
| Steps.RoundRatioUnique | frontend/src/question.js:828 | Only one integer meets those bounds, so they define the rounding |
| Personality.ScoreTable | frontend/src/question.js:188-192 | The score table has exactly the eight poles as keys |
| Personality.Letter | frontend/src/question.js:193-194 | The higher-scoring pole of a pair, or 'X' on a tie |
| Personality.Code | frontend/src/question.js:195-198 | The code has four letters: the E/I, S/N, T/F and J/P letters, in that order |
| Personality.QuestionsScorePoles | frontend/src/question.js:29-82 | Every one of the twelve questions counts towards one of the eight poles |
| Personality.SumPoles | frontend/src/question.js:188-192 | The loop over the questions leaves each pole at the sum of its answers, with a missing answer counting 0 |
| Personality.ComputeMbti | frontend/src/pages/SurveyPage.jsx:236-244 | The memo yields the score table and the code read off it |
| Personality.ScoreWithoutAnswers | frontend/src/question.js:190 | With no answers every pole scores 0 |
| Personality.NoAnswersGiveXXXX | frontend/src/question.js:187-199 | With no question answered the code is "XXXX" |
| Personality.ScoreDependsOnOwnQuestions | frontend/src/question.js:189-192 | A pole's score depends only on the answers to its own questions |
| Personality.ScoreMonotone | frontend/src/question.js:189-192 | Raising answers never lowers a score |
| Personality.BarPercent | frontend/src/question.js:826-828 | The bar percentage lies in 0..100; it is 0 for a zero value and 100 when the pair scores 0 |
| Personality.BarPercentComplement | frontend/src/question.js:826-828 | The two bars of a pair add up to 100, or 101 when both round a half up |
| Text.Trim | frontend/src/pages/SurveyPage.jsx:65 | `trim()`: the result is a slice of the input with only white space cut off either end, and it starts and ends with non-space |
| Text.TrimEmptyIffAllSpace | frontend/src/question.js:167 | A trimmed text is empty exactly when the text is all white space |
| Text.TrimPadded | frontend/src/pages/SurveyPage.jsx:65 | Trimming white-space padding gives back the padded text |
| Text.ToLower | frontend/src/pages/SurveyPage.jsx:65 | `toLowerCase()` on ASCII: same length, each capital letter lowered and every other character kept |
| Text.ToLowerLowers | frontend/src/pages/SurveyPage.jsx:65 | The result is lower case, and a lower-case text is its own lower case |
| Text.Split | frontend/src/pages/SurveyPage.jsx:65 | `split(',')`: at least one piece, none containing the separator |
| Text.JoinSplit | frontend/src/pages/SurveyPage.jsx:65 | Joining the pieces of a split with the separator gives back the text |
| Text.SplitJoin | frontend/src/pages/SurveyPage.jsx:65 | Splitting a join of separator-free pieces gives back the pieces |
| Text.Replace | backend/jobseeker.py:267-268 | `replace`: each occurrence of one character becomes the other, and none remains |
| Text.NatToString | frontend/src/question.js:175 | The decimal digits of a count, with no leading zero |
| Text.ParseNatToString | frontend/src/question.js:175 | Reading the digits back gives the number |
| Text.CountAppend | backend/jobseeker.py:272 | Counting a character over a concatenation adds the counts |
| SkillImport.AliasesAreLowerCase | frontend/src/pages/SurveyPage.jsx:31-44 | Every alias key is lower case |
| SkillImport.AliasTable | frontend/src/pages/SurveyPage.jsx:32-35 | "html", "css" and "html/css" map to "html_css"; "react" and "react.js" map to "react" |
| SkillImport.CleanTokens | frontend/src/pages/SurveyPage.jsx:65 | The tokens are exactly the non-empty normalised pieces, no more of them than pieces |
| SkillImport.NormalizeClean | frontend/src/pages/SurveyPage.jsx:65 | A trimmed, lower-cased comma-free piece is lower case, comma-free and without outer white space |
| SkillImport.TokensAreClean | frontend/src/pages/SurveyPage.jsx:65 | Every token is non-empty, lower case, comma-free and without outer white space |
| SkillImport.SkillId | frontend/src/pages/SurveyPage.jsx:69 | A token's id is its alias entry when it has one, otherwise the token itself |
| SkillImport.AddIds | frontend/src/pages/SurveyPage.jsx:66-72 | Adding the id of each token in turn yields the old set plus the tokens' ids |
| SkillImport.ImportSkills | frontend/src/pages/SurveyPage.jsx:65-73 | The new learned set is the old one plus the imported ids, so nothing is removed |
| SkillImport.ImportTwice | frontend/src/pages/SurveyPage.jsx:66-73 | Importing the same text twice gives the same set as importing it once |
| SkillImport.BlankImportsNothing | frontend/src/pages/SurveyPage.jsx:65 | Importing adds no id exactly when the text is only white space and commas |
| SkillImport.SinglePieceTokens | frontend/src/pages/SurveyPage.jsx:65 | A comma-free text is a single token, its normalised form, unless that is empty |
| SkillImport.ReactExample | frontend/src/pages/SurveyPage.jsx:65-69 | " React.JS " imports the single id "react" |
| SkillImport.SkillIdAsWritten | frontend/src/pages/SurveyPage.jsx:69 | The property read as written: an inherited member is reached exactly for non-alias tokens that name an `Object.prototype` member |
| SkillImport.InheritedNamesHaveCapitals | frontend/src/pages/SurveyPage.jsx:69 | Every inherited member name except "constructor" and "__proto__" has a capital letter, so lower-cased input cannot reach it |
| SkillImport.AsWrittenDiffersOnlyOnInheritedNames | frontend/src/pages/SurveyPage.jsx:69 | For lower-cased tokens the lookup as written agrees with the intended id, except exactly on "constructor" and "__proto__" |
| SkillImport.ConstructorIsNotImportedAsItself | frontend/src/pages/SurveyPage.jsx:65-69 | The typed skill "constructor" is a token, but the lookup yields an inherited member instead of the id "constructor" |
| Checkbox.RemoveAll | frontend/src/pages/SurveyPage.jsx:196 | Filtering removes every occurrence of the option, keeps every other option, keeps a duplicate-free list duplicate-free and changes nothing when the option is absent |
| Checkbox.ToggleFlips | frontend/src/pages/SurveyPage.jsx:193-198 | `handleCheckboxChange` flips the option's membership and keeps every other option's |
| Checkbox.TogglePreservesNoDup | frontend/src/pages/SurveyPage.jsx:195-197 | A duplicate-free list stays duplicate-free, and an unchosen option is appended at the end |
| Checkbox.ToggleTwiceRestores | frontend/src/pages/SurveyPage.jsx:195-197 | Choosing and then unchoosing an option gives back the very same list |
| Checkbox.Dedup | frontend/src/question.js:764 | `new Set(values)` holds each value once, exactly the values given |
| Checkbox.SetVal | frontend/src/question.js:763-767 | `setVal` yields a duplicate-free list in which the option's membership is flipped and every other option's is kept |
| Checkbox.SetValFlips | frontend/src/question.js:765 | The option's membership is flipped and every other option's is kept |
| Checkbox.SetValTwiceRestoresMembership | frontend/src/question.js:763-767 | Two presses of the same checkbox restore every option's membership |
| Checkbox.SetValTwiceRestoresList | frontend/src/question.js:763-767 | On a duplicate-free list, pressing an unchosen option twice gives back the list itself |
| SurveyPage.ValidateNeverBlocks | frontend/src/pages/SurveyPage.jsx:85-106 | Validation returns "" for every step |
| SurveyPage.Survey.constructor | frontend/src/pages/SurveyPage.jsx:48-55 | A fresh page: step 0, no error, empty answers and groups, and the parent's learned set |
| SurveyPage.Survey.Next | frontend/src/pages/SurveyPage.jsx:58-78 | Clears the error and advances the step; the learned set grows by the imported ids exactly when leaving step 2 and is otherwise unchanged; the answers are unchanged |
| SurveyPage.Survey.Back | frontend/src/pages/SurveyPage.jsx:80-83 | Clears the error and goes back one step, never below 0; nothing else changes |
| SurveyPage.Survey.HandleCheckboxChange | frontend/src/pages/SurveyPage.jsx:193-199 | Toggles the option in the named group only (membership flipped); every other group and field is unchanged |
| SurveyPage.Survey.Summary | frontend/src/pages/SurveyPage.jsx:236-244 | The summary shows the code of the current answers |
| SurveyPage.WalkToSummary | frontend/src/pages/SurveyPage.jsx:58-78 | Three presses of Next from a fresh page reach the summary, importing the typed skills exactly once |
| Questionnaire.Unanswered | frontend/src/question.js:173 | The count of questions with a missing or zero answer is at most the number of questions, and is 0 exactly when all are answered |
| Questionnaire.Message | frontend/src/question.js:167-181 | Every failure message is non-empty |
| Questionnaire.FirstFailure | frontend/src/question.js:164-184 | The position of the first failing check: every earlier check passes |
| Questionnaire.Report | frontend/src/question.js:164-184 | A step's report is "" exactly when every one of its checks passes |
| Questionnaire.Validate | frontend/src/question.js:164-184 | `validate` as written, with one `if` per check, equals the first-failing-check report |
| Questionnaire.ValidateSteps | frontend/src/question.js:172-183 | The summary is never refused; step 2 passes exactly with skills, work mode and a role; step 1 passes exactly when every question is answered |
| Questionnaire.UnfinishedMessageCounts | frontend/src/question.js:172-175 | The step-1 message is the fixed prefix, then decimal digits that read back as exactly the number of unanswered questions, then the fixed suffix |
| Questionnaire.ProgressPct | frontend/src/question.js:151 | The progress bar is 0, 33, 67 or 100 on steps 0..3; it is 100 only on the summary and 0 only on the first page |
| Questionnaire.ProgressMonotone | frontend/src/question.js:151 | The bar never shrinks as the step grows |
| Questionnaire.FmtList | frontend/src/question.js:842-844 | "-" for a missing or empty list; a single item is shown as itself |
| Questionnaire.FmtListCons | frontend/src/question.js:843 | Two or more items show as the first item, ", ", then the rest shown the same way, so the items are joined with ", " |
| Questionnaire.FmtListDash | frontend/src/question.js:842-844 | The text is "-" exactly for a missing or empty list, or a list holding only "-" |
| Questionnaire.Questionnaire.constructor | frontend/src/question.js:11-27 | A fresh questionnaire: step 0, no error, an empty form |
| Questionnaire.Questionnaire.Next | frontend/src/question.js:153-158 | A failing check keeps the step and sets its message as the error; otherwise the error is cleared and the step advances; the form is unchanged |
| Questionnaire.Questionnaire.Back | frontend/src/question.js:159-162 | Clears the error and goes back one step, never below 0; the form is unchanged |
| Questionnaire.Questionnaire.ResetAll | frontend/src/question.js:202-234 | Step 0 and an empty form; the error line is untouched |
| Questionnaire.Questionnaire.Summary | frontend/src/question.js:187-200 | The memo yields the score table and the code of the current answers |
| Questionnaire.ResetBlocksNext | frontend/src/question.js:153-203 | Right after a reset, Next is refused with the name message and the step stays 0 |
| Graph.NodeIds | frontend/src/utils/dataTransformer.js:64-65 | The node ids, in node order |
| Graph.HasNodeIff | frontend/src/data/GraphData.jsx:18-19 | A node with an id exists exactly when the id is among the node ids |
| Graph.RankGrowsAlongPath | frontend/src/data.jsx:27-57 | Along any walk of one or more edges in a layered graph the rank strictly grows |
| Graph.RankedIsAcyclic | frontend/src/data.jsx:27-57 | A graph with a layering has no cycle |
| Graph.RankedHasNoSelfLoops | frontend/src/data.jsx:27-57 | A graph with a layering has no self-loop |
| DemoGraph.NodeIdsDistinct | frontend/src/data.jsx:6-25 | No two demo nodes share an id |
| DemoGraph.EdgeIdsDistinct | frontend/src/data.jsx:29-56 | No two demo edges share an id |
| DemoGraph.EndpointsAreNodes | frontend/src/data.jsx:29-56 | Every demo edge starts and ends at a node |
| DemoGraph.AttributesInRange | frontend/src/data.jsx:6-56 | Necessities lie in [0,1]; values lie in 0..100; every node is a skill or a job; jobs take time 0 and skills a positive time |
| DemoGraph.TargetJobsAreSinks | frontend/src/data.jsx:22-56 | No edge leaves fe_dev, be_dev or data_sci |
| DemoGraph.DemoRanked | frontend/src/data.jsx:29-56 | Every demo edge climbs an explicit layering, from the starting points to the jobs |
| DemoGraph.DemoIsAcyclic | frontend/src/data.jsx:27-57 | The demo graph has no cycle and no self-loop |
| StarterGraph.StarterIdsDistinct | frontend/src/data/GraphData.jsx:31-49 | Node ids and edge ids are unique |
| StarterGraph.StarterEndpoints | frontend/src/data/GraphData.jsx:40-49 | Every edge joins two nodes of the graph |
| StarterGraph.StarterAttributes | frontend/src/data/GraphData.jsx:10-49 | Every node is a skill or a job; necessities lie in [0,1] and values in 0..100 |
| StarterGraph.OnlyJobIsSink | frontend/src/data/GraphData.jsx:33-49 | fe_dev is the only job; it takes time 0 and nothing depends on it |
| StarterGraph.StarterIsAcyclic | frontend/src/data/GraphData.jsx:40-49 | html→js→react→fe_dev plus js→fe_dev is layered, hence acyclic and without self-loops |
| StarterGraph.AliasTargetsInStarter | frontend/src/pages/SurveyPage.jsx:30-44 | Of the alias targets, only "react" names a node of the starter graph |
| FlowTransform.RendererType | frontend/src/utils/dataTransformer.js:74 | "jobNode" exactly for kind "job", otherwise "skillNode" |
| FlowTransform.StrokeWidth | frontend/src/utils/dataTransformer.js:89 | A necessity in [0,1] gives a width in [1,5]: 0 gives 1, and 1 gives 5 |
| FlowTransform.StrokeWidthFaithful | frontend/src/utils/dataTransformer.js:88-89 | The width determines the necessity, and a stronger need draws a strictly thicker line |
| FlowTransform.ToFlowEdges | frontend/src/utils/dataTransformer.js:79-93 | One renderer edge per graph edge, in order, with the same id, source and target, colour "#555" and a width encoding the necessity |
| FlowTransform.FlowEdgeWidths | frontend/src/utils/dataTransformer.js:88-89 | When every necessity is a weight, every line is 1 to 5 wide |
| FlowTransform.FlowEdgesJoinNodes | frontend/src/utils/dataTransformer.js:64-82 | When the graph's edges join its nodes, every renderer edge joins two renderer node ids |
| FlowTransform.TopLeft | frontend/src/utils/dataTransformer.js:47-50 | The corner plus half the box size is the centre |
| FlowTransform.TopLeftOffset | frontend/src/utils/dataTransformer.js:9-50 | The corner lies 86 left of and 18 above the centre |
| FlowTransform.FlowNode.constructor | frontend/src/utils/dataTransformer.js:64-76 | A renderer node has the graph node's id, its name, type, time and value as data, the renderer type of its kind, and position (0,0) |
| FlowTransform.ToFlowNodes | frontend/src/utils/dataTransformer.js:64-76 | One new renderer node per graph node, in order, each at the origin |
| FlowTransform.Layout | frontend/src/utils/dataTransformer.js:44-55 | Every node's position becomes the top-left corner of the box centred where the layout put its id; the same node and edge lists are returned |
| FlowTransform.GetInitialElements | frontend/src/utils/dataTransformer.js:62-97 | One laid-out renderer node per graph node, in order; the renderer edges of the graph |
| JobSearch.OrElse | backend/jobseeker.py:158-160 | Python's `x or default`: None and "" fall back, any other string is kept |
| JobSearch.Take | backend/jobseeker.py:160 | Python's `s[:n]`: the prefix of exactly min(n, length) items |
| JobSearch.BaseRoles | backend/jobseeker.py:158 | The target roles when there are any, otherwise the single current title or "工程师" |
| JobSearch.FallbackQueries | backend/jobseeker.py:157-162 | One query per base role, each built from the role, the first four skills and the location, with "Remote" by default |
| JobSearch.FallbackQueryShape | backend/jobseeker.py:159-162 | Each fallback query starts with its role and ends with the location and " hiring requirements"; at most four skills are named |
| JobSearch.FallbackWithoutRoles | backend/jobseeker.py:158-162 | With no roles, no title and no location, the fallback is one "工程师" query in "Remote" |
| JobSearch.GenQueries | backend/jobseeker.py:151-162 | The parsed queries when the reply parses, otherwise the fallback queries (at least one) |
| JobSearch.GuessedRoles | backend/jobseeker.py:219-225 | At most five roles, a prefix of the parsed list: the whole list when it has five or fewer, exactly five otherwise, or else the title or "Software Engineer" |
| JobSearch.HitOf | backend/jobseeker.py:176-181 | A result becomes a hit exactly when it has a URL and a snippet (content, else raw content); the hit keeps URL and title and exactly the first min(5000, length) characters of the snippet |
| JobSearch.HitsOfWellFormed | backend/jobseeker.py:177-181 | Each result list yields at most one hit per result, and every hit is well formed |
| JobSearch.AllHitsWellFormed | backend/jobseeker.py:171-182 | Every hit has a URL and between 1 and 5000 characters of content |
| JobSearch.SearchJobs | backend/jobseeker.py:171-182 | The loop over queries and results yields the hits of all queries, query by query |
| JobSearch.DedupByUrl | backend/jobseeker.py:230-235 | The loop with a seen-set keeps exactly the first hit of each URL, in order |
| JobSearch.FirstHitsProperties | backend/jobseeker.py:230-235 | Every kept hit is an input hit, no URL repeats, and every input URL survives |
| JobSearch.FirstHitsSubsequence | backend/jobseeker.py:230-235 | The kept hits are at strictly increasing positions, each the first with its URL, and every first occurrence is kept |
| JobSearch.FirstHitsIdempotent | backend/jobseeker.py:230-235 | De-duplicating twice changes nothing more |
| JobSearch.DistinctUrlsKept | backend/jobseeker.py:230-235 | A list whose URLs are already distinct is kept whole |
| JobRanking.SummarizeHit | backend/jobseeker.py:185-198 | A posting exactly when the reply parses to one; the hit's URL is filled in when the reply has none or an empty one, and nothing else changes |
| JobRanking.ScoredProperties | backend/jobseeker.py:237-243 | At most one posting per hit; every posting is scored; every posting has a URL when the hits do |
| JobRanking.ScoredKeepsParsed | backend/jobseeker.py:239-243 | When every reply parses, every hit yields a posting |
| JobRanking.ScorePostings | backend/jobseeker.py:237-243 | The loop yields the summarised postings, each with its fit score, in hit order |
| JobRanking.InsertMembers | backend/jobseeker.py:246 | Inserting adds that posting and nothing else |
| JobRanking.InsertOrdered | backend/jobseeker.py:246 | Inserting into a best-first list keeps it best first |
| JobRanking.InsertPermutes | backend/jobseeker.py:246 | Inserting adds exactly one copy of the posting to the multiset |
| JobRanking.InsertWithKey | backend/jobseeker.py:246 | Inserting places the posting after every posting of equal fit |
| JobRanking.SortByFitCorrect | backend/jobseeker.py:246 | The sort is best first by `fit_score or 0.0`, a permutation, and stable for equal fits |
| JobRanking.SortedStableIsUnique | backend/jobseeker.py:246 | Two best-first, stable orderings of the same postings are equal |
| JobRanking.StableSortIsSortByFit | backend/jobseeker.py:246 | Any stable sort by descending fit, such as Python's, gives exactly the modelled order |
| JobRanking.InsertAt | backend/jobseeker.py:246 | One in-place pass puts the prefix plus the next posting in inserted order and leaves the rest of the array alone |
| JobRanking.SortPostings | backend/jobseeker.py:246 | The in-place sort leaves the array holding the stable best-first order of its old contents |
| JobRanking.SliceTo | backend/jobseeker.py:247 | Python's `s[:k]`: a prefix of min(k, n) items for k ≥ 0, and for k < 0 the list minus its last −k items |
| JobRanking.Recommend | backend/jobseeker.py:210-247 | The pipeline (roles, queries, search, de-duplication, scoring, sort, cut) yields the ranked top postings |
| JobRanking.RankedIsTop | backend/jobseeker.py:246-247 | The result is best first, at most top_k long, and a prefix of a permutation of the scored postings, each at least as good as every posting left out |
| JobRanking.PrefixBeatsRest | backend/jobseeker.py:246-247 | In a best-first list every posting of a prefix fits at least as well as every posting after it |
| JobRanking.RankedAreScored | backend/jobseeker.py:242-247 | Every recommendation carries a fit score |
| JobRanking.Escape | backend/jobseeker.py:267-268 | An escaped cell keeps its length and holds no bar character; a cell without one is unchanged |
| JobRanking.RowBars | backend/jobseeker.py:272 | A row of five cells holds six bars plus those inside the cells |
| JobRanking.RowColumns | backend/jobseeker.py:266-272 | As written, each bar character in the location or the URL adds a column to the row |
| JobRanking.RowSplitsLocation | backend/jobseeker.py:266-272 | As written, a location "Beijing, bar, Remote" gives a row of six cells instead of five |
| JobRanking.RowEscapedHasFiveColumns | backend/jobseeker.py:266-272 | With every text cell escaped, each row has exactly the five columns of the header |
| JobRanking.RowAgreesWithoutBars | backend/jobseeker.py:266-272 | The two rows differ only when the location or the URL holds a bar character |

## Left out

- Rendering, layout markup, styles and UI-only components are UI, not logic: the JSX sections, MUI and Tailwind markup, the style injection at the end of `question.js`, `CustomNode.jsx`, `App.jsx`, `main.jsx`, `Graph.jsx`, `GraphPage.jsx` and `ResultPage.jsx`.
- React `useState`/`useMemo` mechanics: the state is modelled as explicit class fields updated by methods. Functional-update batching and re-render timing are not modelled.
- The survey page's `validate` has only one return, "". The early-return branch of its `next` is therefore dead and not modelled.
- The survey page's basic-info fields and its single-choice preferences other than the work mode are not carried, because no modelled logic reads them.
- The dagre layout computation in `getLayoutedElements` is a foreign library. The centre it computes for each node is the parameter `centre`, and the direction and spacing settings are not modelled.
- Floating-point numbers: times, values, necessities and scores are exact reals. Python's `float()` parsing of scores and the `:.2f` formatting are left out; the formatter is the parameter `fmt`.
- Language-model prompts and calls, JSON parsing of their replies, and the web search are foreign calls. They become parameters:
  - `parsedRoles` and `parsedQueries`: the parsed reply, or `None` when parsing fails;
  - `search`: a query's results;
  - `reply`: a hit's summary;
  - `score`: a posting's fit.
- A parsed JSON reply that is not a list of strings is not modelled. Neither is `extract_profile`; its profile is an input, and a missing current title is `None`.
- The `requirements` and `keywords` lists of `JobPosting` are not carried, because the modelled logic never reads them.
- PDF reading, argparse, the JSON print and the table header print are I/O.
- The `max_results` argument of the search is passed to the foreign call only.
- Lower-casing covers ASCII letters only; JavaScript's full Unicode case mapping is not modelled.
- SkillImport.ImportSkills / SkillImport.AddIds / SurveyPage.Survey.Next: these use the intended lookup `SkillImport.SkillId` and keep the learned set as a set of strings. The source's `skillNameToIdMap[name] || name` differs on exactly two lower-cased tokens, "constructor" and "__proto__": for them it adds an inherited `Object.prototype` member (the `Object` function, the prototype object) rather than the token. `SkillImport.AsWrittenDiffersOnlyOnInheritedNames` proves that every other token gets the same id both ways. The as-written lookup is `SkillImport.SkillIdAsWritten` (see Findings).
- SkillImport.ImportSkills: states the new set as the old set plus `ImportedIds(text)`, the ids of the tokens. It does not separately state that each added id is the alias or the token itself; `SkillImport.SkillId` and `SkillImport.TokensAreClean` state that per token.

## Findings

| source | as written | input that shows it | evidently intended | confidence | as-written member | corrected member |
|---|---|---|---|---|---|---|
| frontend/src/pages/SurveyPage.jsx:69 | The lookup `skillNameToIdMap[name]` (or the name) reads inherited `Object.prototype` members, so two lower-case tokens get a function or an object instead of a string id | skills text "constructor" (or "__proto__") | every token not in the alias table is added as itself | not executed | SkillImport.ConstructorIsNotImportedAsItself | SkillImport.AsWrittenDiffersOnlyOnInheritedNames |
| backend/jobseeker.py:266-272 | `row` turns the bar character into a slash in title and company only, so a bar in the location or the URL adds a column to the Markdown table | a posting with location "Beijing", a bar, "Remote" | every cell escaped, so each row has the header's five columns | not executed | JobRanking.RowSplitsLocation | JobRanking.RowEscapedHasFiveColumns |
