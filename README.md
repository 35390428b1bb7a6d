# Credit-risk prediction page: decision logic

This project models the decision logic of `app.py`, a single Streamlit page.
The page collects a loan applicant's attributes in a sidebar and checks one
plausibility rule: years employed may not exceed age minus 15. It then
encodes three category selections through fixed dict literals, computes the
loan-to-income ratio and assembles an eight-entry feature vector in training
order. Behind a gate it scales the vector and asks the chosen classifier
(XGBoost or random forest) for a class and a probability of default, which it
shows as a status and a risk band.

Streamlit re-runs the script on every interaction. The model is therefore a
pure function of the widget values, the model choice, whether the button was
pressed and the loaded artifacts:

- `wrappers.dfy`: `Option`, standing for a Python operation that either
  yields a value or raises.
- `dict_table.dfy` (`DictTable`): a dict literal as its items in insertion
  order. `Get` is the subscript `d[k]`, with None for the KeyError.
  `KeysWithValue` and `FirstKeyWithValue` are the reverse lookup
  `[k for k, v in d.items() if v == x][0]`, with None for the IndexError.
  The lemmas prove the round trips for dicts whose codes are distinct.
- `categories.dfy` (`Categories`): the home-ownership, loan-intent and
  loan-grade dicts. `Code` encodes a selected label and `Text` decodes a
  code for the summary.
- `applicant.dfy` (`Applicant`): the form, the validity flag, the ratio, the
  `data` record of `user_input_features` and the feature vector.
- `prediction.dfy` (`Prediction`): the gate, the classifier routing, status,
  risk band and `Run`, the whole page for one interaction.

The scaler and the classifiers are opaque. They are function-valued fields
of `Scaler` and `Model`, and a `None` handle is `Option.None`. Each call the
page makes into them is recorded, with its argument, in an ordered list of
`Call`s. This list is what "no classifier call unless the gate is open" and
"only the chosen classifier is called" are stated about. Numbers are exact:
widget values are `int`, and the ratio and probabilities are `real`.

Where the code departs from what its messages suggest, the model follows
the code:

- The gate tests only `model_xgb` and `scaler` (app.py:137), not
  `model_rf`. If the random forest is chosen while its handle is `None`, the
  scaler has already been called and `model_rf.predict` raises. The model
  gives `ScoringFailed` for this case, with only the transform call recorded.
- A category label missing from its dict raises KeyError. The select boxes
  offer only the dict's keys, so `SelectionsOffered` is a precondition of
  `UserInputFeatures` and `Run`.
- A failed artifact load does not give four absent handles: the except
  branch returns three values into a four-name unpacking (app.py:24, 26).
  The loader is outside the model, which takes the three handles it uses
  (`model_xgb`, `model_rf`, `scaler`) as a `Bundle`.

## Model

| member | source | states |
|---|---|---|
| `DictTable.Get` | app.py:90-93 | the subscript succeeds exactly for keys of the dict, and the code it returns is stored under that key |
| `DictTable.KeysWithValue` | app.py:117 | the comprehension holds only labels carrying the code and every label that does; its head is the first such label in insertion order |
| `DictTable.FirstKeyWithValue` | app.py:121 | `[0]` of the comprehension raises exactly when no label carries the code, and otherwise gives the first label in insertion order that carries it |
| `DictTable.UniqueMatch` | app.py:123-124 | in a dict whose codes are distinct, the comprehension for a stored code is exactly the one label stored with it |
| `DictTable.GetAt` | app.py:90-93 | in a dict, subscripting the key at a position gives the code at that position |
| `DictTable.DecodeEncoded` | app.py:117-124 | encoding a present label and decoding its code by first match returns the label |
| `DictTable.EncodeDecoded` | app.py:117-124 | a label found by first match for a code is stored with that code |
| `DictTable.IndexCodesInjective` | app.py:65-75 | codes equal to positions are pairwise distinct |
| `Categories.OptionsWellFormed` | app.py:65-75 | each of the three category dicts has distinct labels and codes 0, 1, ... in order |
| `Categories.OptionCounts` | app.py:65-75 | 4 home-ownership labels, 6 loan intents, 7 loan grades |
| `Categories.Code` | app.py:90-93 | a selected label's code lies in 0..n-1, and decoding it by first match gives back that label |
| `Categories.Text` | app.py:117-124 | decoding succeeds exactly for codes 0..n-1, and the label found is stored with that code |
| `Categories.CodeOfText` | app.py:117-124 | every code 0..n-1 decodes to a label whose code is that code |
| `Categories.CodeInjective` | app.py:65-75 | two labels of one dimension with the same code are the same label |
| `Categories.CodesExactly` | app.py:65-75 | a code is the code of some label exactly when it is in 0..n-1 |
| `Applicant.IsValidInput` | app.py:53-56 | the input is valid exactly when the implied starting age, age minus years employed, is at least 15 |
| `Applicant.ValidityMonotone` | app.py:54 | a valid (age, years employed) stays valid for an older age or fewer years |
| `Applicant.ValidityExamples` | app.py:54 | 33 with 18 years and 30 with 15 are valid; 20 with 10 and 30 with 16 are not |
| `Applicant.LoanPercentIncome` | app.py:79-82 | for a positive income the ratio times the income is the loan amount; otherwise it is exactly 0.0 |
| `Applicant.RatioWithinWidgetBounds` | app.py:79-82 | within the number-input bounds the ratio lies between 0.00005 and 500 |
| `Applicant.RatioExamples` | app.py:79-82 | loan 10000 on income 50000 gives 0.2; income 0 gives 0.0 |
| `Applicant.UserInputFeatures` | app.py:39-97 | the flag is set exactly when years employed are at most age minus 15; otherwise the sidebar error names both values; the numeric fields pass through; each category code decodes back to the selected label; the ratio is the guarded ratio |
| `Applicant.TrainingOrderIsPermutation` | app.py:140-149 | the training order has 8 entries and lists every feature exactly once |
| `Applicant.FinalFeatures` | app.py:140-149 | the vector has 8 entries, and entry i is the record's value for the i-th feature of the training order |
| `Applicant.CodeAt` | app.py:65-75 | the label at position i of a category dict has code i |
| `Applicant.WorkedExample` | app.py:140-149 | age 25, income 50000, 2 years, RENT, loan 10000, grade A, PERSONAL is valid and gives [25, 50000, 2, 3, 10000, 0, 4, 0.2] |
| `Prediction.ChosenClassifier` | app.py:155-160 | XGBoost is chosen exactly for the label "XGBoost (Recommended)", the random forest for any other label |
| `Prediction.Decide` | app.py:134-137 | warning exactly when invalid; idle when valid and not pressed; "model not loaded" when pressed with `model_xgb` or `scaler` missing; scoring exactly when valid, pressed and both loaded, with the chosen classifier |
| `Prediction.StatusOf` | app.py:166-171 | LANCAR exactly when the predicted class is 0 |
| `Prediction.BandOf` | app.py:176-179 | high risk exactly when the probability of default exceeds 0.5 |
| `Prediction.BandMonotone` | app.py:176-179 | a higher probability never lowers the band, and 0.5 itself is low risk |
| `Prediction.Score` | app.py:152-174 | the scaler is called first on the raw vector; every later call goes to the chosen classifier on the scaled row; a result is shown exactly when the chosen handle is loaded, with the status from its class and the band from its positive-class probability |
| `Prediction.Summarize` | app.py:117-124 | the summary succeeds exactly when all three reverse lookups succeed, and then holds the three labels they found; otherwise the IndexError stops the page |
| `Prediction.Run` | app.py:100-186 | the summary shows the selected labels and never raises; the artifacts are called exactly when the input is valid, the button is pressed and `model_xgb` and `scaler` are loaded; otherwise only the warning, the idle button or the "model not loaded" error; the first call scales the feature vector, and every other call goes to the chosen classifier; with the gate open, the outcome and calls are exactly those of scoring the feature vector with the chosen classifier, so the status and band shown come from its result |
| `Prediction.RoutesToChosenOnly` | app.py:155-160 | with the gate open and the chosen classifier's handle loaded (XGBoost chosen, or `model_rf` present), the calls are exactly transform, predict and predict_proba, the last two on the same scaled row and to the chosen classifier only, and a result from it is shown |
| `Prediction.ImplausibleInputOnlyWarns` | app.py:183-186 | age 20 with 10 years employed shows only the warning, names both values and calls nothing |

## Left out

- Loading the artifacts (app.py:14-26) is file I/O behind a framework cache. The model takes the three handles the page uses (`model_xgb`, `model_rf`, `scaler`) as a `Bundle` argument.
- The loader's failure branch returns three values into a four-name unpacking (app.py:24, 26). This is not modelled. In the source, the gate's "model not loaded" branch is therefore reachable only if a pickle loads as `None`; in the model any `Bundle` with a `None` handle reaches it.
- `St.markdown` (app.py:29) raises NameError before anything else renders. This is not modelled.
- The label encoder artifact is loaded but never used on the scoring path. It is not modelled.
- Streamlit rendering is not modelled: page config, titles, metrics, columns, progress bar, success, error and warning boxes. The only exceptions are the values the sidebar error names and which prediction branch is shown.
- Number formatting (`:,`, `:.2%`) is not modelled.
- The widget bounds (app.py:43, 46, 49, 62) appear only as `WithinWidgetBounds`, a hypothesis of the ratio-range lemma. No operation requires them.
- Floating point is not modelled. The ratio and probabilities are exact reals.
- `np.array` wrapping and the batch dimension are not modelled: the scaler and classifiers act on one row.
- `Prediction.Score`: `predict_proba` is a pair of probabilities, so the IndexError of `probability[0][1]` on a narrower result is not represented.
- `scaler.transform`, `predict` and `predict_proba` are opaque. Exceptions they raise are not modelled.
- Determinism for repeated identical inputs is not stated as a lemma. It holds because every member is a function.
- The display copies of the three dicts (app.py:117, 121, 123) are the same literals as app.py:65-75. Each dict is modelled once.
