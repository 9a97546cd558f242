# Scoring core of the 300-point question-draft scorer

The system is a single Streamlit page (`app.py`) that helps local-assembly
members check a draft of a general question. A button press sends the draft,
embedded in a fixed prompt, to a language model. The model answers with a
15-item × 4-axis score matrix. The page adds the matrix up to a total out of
300, shows a pass / border / fail banner and draws a radar chart of the
fifteen item totals. A per-session counter limits the number of model calls.

This project models the integer and string logic of that page in Dafny and
proves what it promises:

- `rubric.dfy` (module `Rubric`): the item catalog, the axes A..D, the score
  levels 0..5, and the shape of a complete reply.
- `ranking.dfy` (module `Ranking`): `judge_rank` as a threshold ladder, and the
  banner ladder of the button handler. Each ladder is checked against a
  reference definition that counts the breakpoints it reaches. The banner
  agrees with the rank.
- `aggregation.dfy` (module `Aggregation`): the aggregation loop as a method
  with loop invariants, proved against the spec functions `ItemTotals` and
  `GrandTotal`. It includes the failure on a missing item key and the bounds
  0..20 per item and 0..300 overall.
- `radar.dfy` (module `Radar`): the label and value lists of the radar chart,
  closed by repeating the first point.
- `prompt.dfy` (module `Prompt`): `build_prompt`. It keeps the draft verbatim
  and lists every item's skeleton entry.
- `budget.dfy` (module `Budget`): the session call counter as a class with the
  fields `used` and `max`, and the guard `check_api_limit`.
- `scoring_page.dfy` (module `ScoringPage`): the button handler. It runs the
  guard, sends the prompt, counts the call, and then parses, aggregates and
  picks the banner and the chart.
- `wrappers.dfy` (module `Wrappers`): an `Option` type.

Modelled as written: the handler reserves 3 calls in its guard (app.py:148)
but counts only 1 (app.py:155), and a request that raises is not counted at
all. So a session that starts at 0 with ceiling `max >= 2` gets exactly
`max - 2` presses whose request returns. The counter stops at `max - 2` and
never reaches the ceiling (`PermittedPressesCount`, tied to each press by the
contract of `PressScoreButton`).

Facts of `app.py` the model keeps:

- `judge_rank` has the five ranks S, A, B, C and D (app.py:76-85);
- the reply goes straight to `json.loads` (app.py:159);
- an empty draft is sent as it is (app.py:145-153);
- one press makes one scoring request and nothing more (app.py:147-183).

## Model

| member | source | states |
|---|---|---|
| Ranking.JudgeRankBands | app.py:76-85 | S exactly from 270, A exactly for 240..269, B for 210..239, C for 180..209, D exactly below 180 |
| Ranking.JudgeRankCountsThresholds | app.py:76-85 | the rank's level equals the number of the breakpoints 270, 240, 210, 180 the total reaches |
| Ranking.JudgeRankMonotone | app.py:76-85 | a larger total never gets a worse rank in the order S > A > B > C > D |
| Ranking.BannerCountsThresholds | app.py:176-181 | the banner's level (fail 0, border 1, pass 2) equals the number of the breakpoints 210, 180 the total reaches |
| Ranking.BannerAgreesWithRank | app.py:176-181 | the banner is pass exactly for ranks S, A, B (total >= 210), border exactly for C, fail exactly for D |
| Aggregation.AxisSum | app.py:171 | an item with all four axes at levels 0..5 has a subtotal in 0..20 |
| Aggregation.AxisSumIsSumOfValues | app.py:171 | the subtotal taken in axis order equals the order-free sum of all the item's values (`sum(s.values())`) |
| Aggregation.FirstMissing | app.py:169-170 | the item whose lookup fails first is missing and every item before it is present |
| Aggregation.Aggregate | app.py:165-173 | fails exactly when some item 1..15 is missing, naming the first one; otherwise item_totals has keys 1..15, each the sum of that item's axis values, and total is the sum of the 15 item totals |
| Aggregation.AggregateBounds | app.py:169-173 | for a reply of 15 items × 4 axes at levels 0..5, every item total is in 0..20 and the total in 0..300 |
| Aggregation.UniformTotal | app.py:169-173 | a reply giving every axis of every item level v totals 60 * v |
| Radar.RadarTrace | app.py:90-97 | values and labels each have length 16, list items 1..15 in order (totals and names), and end with a copy of the first element |
| Radar.RadarShowsTotals | app.py:92 | the item totals can be read back unchanged from the chart's first fifteen values |
| Radar.RadarWithinRange | app.py:102 | for a complete reply every chart value lies in the radial axis range 0..20 |
| Prompt.PromptKeepsDraft | app.py:110-137 | the draft stands verbatim at a fixed offset of the prompt and can be read back from it |
| Prompt.PromptInjective | app.py:110-137 | different drafts give different prompts |
| Prompt.PromptListsItem | app.py:117-136 | for each item 1..15 the prompt contains its quoted key with the four axes at 0, after the entries of the items before it |
| Budget.ApiBudget.constructor | app.py:28-29 | a session starts with zero calls used under the configured ceiling |
| Budget.ApiBudget.CheckApiLimit | app.py:31-34 | the page goes on exactly when used + calls does not exceed the ceiling; the guard changes nothing |
| Budget.ApiBudget.RecordCall | app.py:155 | a completed request raises the counter by exactly one and keeps it within the ceiling |
| Budget.PermittedPressesCount | app.py:148-155 | from `used` calls a session gets `max - 2 - used` more presses whose request returns, or none when used + 3 > max |
| ScoringPage.PressScoreButton | app.py:147-183 | refused with no change exactly when used + 3 > max, that is exactly when no permitted presses are left; otherwise sends build_prompt(draft), counts a returned request once so that one permitted press is used up, never lowers the counter, leaves used <= max - 2, and halts on invalid JSON, a missing "scores" key or the first missing item, or shows the totals, the banner for the total and the radar data |
| ScoringPage.AllThreesIsBorder | app.py:165-181 | a reply of all 3s is complete, every item total is 12, the total is 180, rank C, banner border |
| ScoringPage.AllFivesIsTopRank | app.py:165-181 | a reply of all 5s is complete, totals 300, rank S, banner pass |
| ScoringPage.ScoredBannerMatchesRank | app.py:165-181 | for a complete reply the shown total is in 0..300 and the shown banner is the one the rank of that total calls for |

## Left out

- The Streamlit surface is left out: page setup, title, caption, text area, spinner, and the banners and error boxes as UI calls. A stop of the script (`st.stop()`) is a `Halted` outcome.
- The OpenAI client and the chat-completion request (app.py:23, app.py:151-154) are network I/O. What comes back is the `Reply` parameter of `PressScoreButton`.
- `json.loads` (app.py:159) is an opaque parser. Its result is part of `Reply`: not JSON, no "scores" key, or a score matrix. JSON text itself is not modelled.
- The model does not check value types in the reply. Axis values are integers; a float or a string value, which would make `sum` behave differently or raise, is not modelled.
- Item keys of the reply are the item numbers 1..15, not the strings `"1"`..`"15"`. Axis keys are the four axes A..D. An item object with keys outside A..D, which `sum(s.values())` would also add, is not modelled.
- The Plotly figure (app.py:94-105) belongs to a foreign library. Only the label and value lists and the radial range 0..20 are modelled.
- Configuration loading (app.py:17-22) is left out: the credential check and the reading of `MAX_CALLS`. The ceiling is the constructor parameter of `ApiBudget`.
- The rank labels' descriptive text, for example the words after "S" that `judge_rank` returns, is left out. Ranks are the values S..D. The banner messages and the score-level explanations (app.py:64-71) are also left out; only their range 0..5 is kept.
- Streamlit re-runs the script on every interaction and keeps `api_calls` in session state. This is modelled as one `ApiBudget` object that lives across calls of `PressScoreButton`.
