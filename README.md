# Gig loan approval predictor: preprocessing core in Dafny

This project models the deterministic core of the gig-worker loan approval
predictor and proves properties of it:

- **Data generation** (`src/components/data_ingestion.py`):
  - the label rule `determine_loan_approval`;
  - the way the platform-ratings text is written (`generate_platform_ratings`) and read back for the customer feedback score;
  - the missing-value injection driven by `missing_config`.
- **Training and test preprocessing** (`_base_preprocessing` in `src/components/data_preprocessing.py`):
  - one-hot encoding of `reason_for_loan` with the first category dropped;
  - the fraud rule and per-group imputation, then recombination;
  - the first-time-applicant credit sentinel;
  - the median and mode fills;
  - the platform-ratings average;
  - the fixed category maps and the log transforms;
  - the split into features and target.
- **The fit-once contract** of `preprocess_train`, `preprocess_test` and `preprocess_pipeline`. The credit-score PowerTransformer is fitted on the training features only. It is saved, and the test set and the prediction path reuse it.
- **Prediction preprocessing** (`prediction_preprocess`):
  - the fixed six-column one-hot encoding taken from the first row;
  - the ratings parser `calculate_average_platform_rating`;
  - the category maps and the log transforms (without `loan_coapplicant`);
  - the saved transformer, and the error when it is missing.

## How the model is built

- **Frames.** A pandas frame is a sequence of typed records (`Schema.Applicant`, `Schema.Application`, `Schema.FeatureRow`). A cell that can be NaN is an `Option`.
- **Errors.** Every exception the code can raise is a `Schema.PreprocessError`. The errors are checked in the order the source meets them.
- **Training and test preprocessing** are written twice:
  - as functions, one per block of the source, composed by `Preprocessing.BaseSpec`;
  - as the method `Preprocessing.BasePreprocessing`, which rewrites a working array step by step. Each `loc`/`fillna` statement is one in-place pass, `Frames.ApplyInPlace`.

  The method is proved to produce exactly `BaseSpec`. The properties are then proved about `BaseSpec`.
- **The prediction path** follows the same pattern: `Prediction.PredictionPreprocess` is proved equal to `Prediction.PredictionSpec`.
- **The saved transformer file** is the class `Pipeline.TransformerFile`. `Dump` is `joblib.dump`.
- **Numerics without a closed form are parameters.** These are `log1p`, the Yeo-Johnson transform `yj` and the SMOTE resampler `smote`. A fitted transformer is identified by the credit-score column it was fitted on.
- **Random draws are parameters.** These are the generated ratings and the rows `df.sample` picks.

## Model

| member | source | states |
|---|---|---|
| Ingestion.DetermineLoanApproval | src/components/data_ingestion.py:164-186 | the label is always 0 or 1 |
| Ingestion.All | src/components/data_ingestion.py:182-186 | `all()` holds exactly when every flag holds |
| Ingestion.ApprovalRule | src/components/data_ingestion.py:164-186 | approved iff the five basic criteria and the minimum credit hold, and, when there is no co-applicant, the credit score exceeds 700 |
| Ingestion.NoCoapplicantNeeds700 | src/components/data_ingestion.py:176-177 | an approved applicant without a co-applicant has credit score above 700 |
| Ingestion.MinCreditRedundant | src/components/data_ingestion.py:173 | dropping the `>= 500` check changes no label, since `> 650` implies it |
| Ingestion.MonotoneInCredit | src/components/data_ingestion.py:166-183 | raising the credit score of an approved applicant keeps the approval |
| Ingestion.InjectMissing | src/components/data_ingestion.py:243-244 | the nested loop blanks, column by column in dictionary order, exactly the sampled rows of each configured column |
| Ingestion.NulledFixed | src/components/data_ingestion.py:244 | blanking one column makes it NaN and leaves every other column as it was |
| Ingestion.InjectionOnlyConfigured | src/components/data_ingestion.py:232-244 | after injection every column outside the eight configured ones is unchanged; a configured cell is NaN iff it already was or its row was sampled for that column |
| Ingestion.InjectionKeepsLabels | src/components/data_ingestion.py:232-244 | injection never touches the label, the loan reason or the ratings text |
| Ratings.FeedbackRoundTrip | src/components/data_ingestion.py:120-128 | splitting a generated ratings string on "; " and ":" recovers every drawn rating, so the feedback term is their mean |
| Ratings.RatingPair | src/components/data_preprocessing.py:85 | `dict([x.split(':')])` succeeds iff the item has exactly one ':', and the pair rebuilds the item |
| Ratings.TrainingRoundTrip | src/components/data_preprocessing.py:84-91 | on a generated string with at most three platforms, the training parser reads back the generated pairs and averages exactly the drawn ratings |
| Ratings.TrainingUsesFirstThree | src/components/data_preprocessing.py:91 | with more than three platforms, only the first three ratings are averaged |
| Ratings.CalculateAveragePlatformRating | src/components/data_preprocessing.py:191-213 | the loop over the stripped items keeps the ratings of two-part items that parse and returns their mean, or 0.0 when none is kept |
| Ratings.AverageRatingWithin | src/components/data_preprocessing.py:208-209 | the average lies between any bounds of the kept ratings, and is 0.0 when no rating is kept |
| Ratings.PredictionRoundTrip | src/components/data_preprocessing.py:191-209 | the prediction parser returns the mean of the generated ratings for any generated string |
| Ratings.DocstringExample | src/components/data_preprocessing.py:194 | "Zomato:4.7; Swiggy:3.3" averages to 4.0 |
| Stats.MeanWithin | src/components/data_ingestion.py:126 | a mean lies between the bounds of its values |
| Stats.Median | src/components/data_preprocessing.py:63-66 | the median is missing (NaN) iff there is no value |
| Stats.MedianWithin | src/components/data_preprocessing.py:63-66 | a median lies between two present values |
| Stats.MedianOrderFree | src/components/data_preprocessing.py:75-77 | the median depends only on the multiset of values, not on row order |
| Stats.FirstMode | src/components/data_preprocessing.py:78-80 | `mode()[0]` fails iff the column has no value; otherwise it is a present value of maximal count |
| Stats.ModeSmallestOnTie | src/components/data_preprocessing.py:78-80 | among equally frequent values `mode()[0]` is the smallest |
| Schema.EducationCode | src/components/data_preprocessing.py:99 | the education map is defined iff the label is one of the three levels, and the code indexes back to it |
| Schema.UrbanCode | src/components/data_preprocessing.py:100 | the urban/rural map is defined iff the label is "Urban" or "Rural", and the code indexes back to it |
| Schema.YesNoCode | src/components/data_preprocessing.py:101-102 | the yes/no map is defined iff the label is "Yes" or "No", and the code indexes back to it |
| Schema.CodesRoundTrip | src/components/data_preprocessing.py:99-102 | every label is mapped to its own index |
| Schema.Indicator | src/components/data_preprocessing.py:186-187 | one cell per reason, 1 exactly where the reason equals the selected one and 0 elsewhere |
| Schema.ColumnParity | src/components/data_preprocessing.py:182-187 | the training columns equal the prediction columns iff the training vocabulary is the six fixed reasons and no fourth ratings column exists |
| Schema.ShortVocabularyDiffers | src/components/data_preprocessing.py:51 | a dummy vocabulary shorter than the six fixed reasons gives training columns that differ from the prediction columns |
| Frames.WherePartition | src/components/data_preprocessing.py:58-59 | the non-fraud and fraud subsets together are a permutation of the frame |
| Frames.PresentPartition | src/components/data_preprocessing.py:58-66 | the values the two subsets see together are exactly the values of the whole frame, so per-subset medians draw on disjoint parts of it |
| Text.SplitJoin | src/components/data_ingestion.py:122 | splitting a joined list on its separator returns the list when no item holds the separator's first character, as the generator's platform names do |
| Text.ParseFormatTenths | src/components/data_ingestion.py:121-122 | `float()` reads a printed one-decimal rating back exactly |
| BaseProperties.GeneratorVocabulary | src/components/data_preprocessing.py:51 | when every generated reason occurs, `get_dummies(drop_first=True)` keeps exactly the six prediction reasons, with "Business Expansion" dropped |
| BaseProperties.VocabularyFacts | src/components/data_preprocessing.py:51 | the dummy vocabulary is sorted and drawn from the data, and a row has no dummy column iff its reason is the least one |
| BaseProperties.FraudRule | src/components/data_preprocessing.py:55-56 | `fraud_flag` is 1 iff work experience is 0 and income is missing; fraud rows get label 0, others keep theirs |
| BaseProperties.FraudImputation | src/components/data_preprocessing.py:60-61 | a fraud row's missing income becomes 0 and nothing else changes |
| BaseProperties.NonFraudImputation | src/components/data_preprocessing.py:62-66 | every non-fraud row is filled from the medians of the non-fraud subset only, each median taken after the previous fill |
| BaseProperties.ZeroWorkOnlyIfZeroMedian | src/components/data_preprocessing.py:66 | a non-fraud row keeps zero work experience only if the replacing median is itself 0 |
| BaseProperties.RecombinationOrder | src/components/data_preprocessing.py:68 | the recombined frame holds the non-fraud rows first and the fraud rows after, each in original order |
| BaseProperties.CreditAdjustedRows | src/components/data_preprocessing.py:71-72 | `first_time_applicant` is 1 iff work experience and existing loans are 0, and exactly those rows get credit score -1 |
| BaseProperties.FirstTimeOnlyFraud | src/components/data_preprocessing.py:55-72 | unless the non-fraud zero-experience median is 0, first-time applicants are exactly the fraud rows with no existing loans |
| BaseProperties.SentinelSurvives | src/components/data_preprocessing.py:72-77 | the -1 sentinel survives the median fills and is among the values the credit-score median is taken over |
| BaseProperties.ModeErrors | src/components/data_preprocessing.py:78-80 | the mode fills fail on urban_rural, family_dependents and education_level in that order, each iff that column is the first with no value |
| BaseProperties.ModeValues | src/components/data_preprocessing.py:78-80 | when all three columns have values, every gap holds that column's `mode()[0]`, and present cells and all other columns are unchanged |
| DatasetProperties.ImputedCategories | src/components/data_preprocessing.py:51-77 | the imputation steps keep exactly the input's combinations of urban_rural, family_dependents and education_level |
| DatasetProperties.BaseModeErrors | src/components/data_preprocessing.py:78-80 | `_base_preprocessing` fails with a mode error on a column iff no input row has that column and every earlier mode column has a value |
| DatasetProperties.EncodingRows | src/components/data_preprocessing.py:98-119 | encoding fails with a NaN-to-int error iff some row has an unmapped category; otherwise each code indexes back to its label, the six skewed columns get log1p, and y is the label column |
| DatasetProperties.BaseLabels | src/components/data_preprocessing.py:51-119 | a successful run keeps every row, uses the sorted vocabulary, gives every row one cell per dummy column, and y holds the non-fraud labels then one 0 per fraud row |
| DatasetProperties.FinishedRows | src/components/data_preprocessing.py:78-119 | after the mode fill, ratings and encoding, every row of X keeps its dummy cells and its work experience, income, credit score and expenses exactly as imputed, and y keeps its label |
| DatasetProperties.SentinelInFeatures | src/components/data_preprocessing.py:71-119 | a first-time applicant's credit score is -1 in the returned X |
| Preprocessing.ImputeNonFraud | src/components/data_preprocessing.py:62-66 | the three in-place fills on the non-fraud copy end where the specification of that block says |
| Preprocessing.AdjustAndFillMedians | src/components/data_preprocessing.py:71-77 | the sentinel and the three median fills in place end where their specification says |
| Preprocessing.FillModes | src/components/data_preprocessing.py:78-80 | fails iff the specification fails, with the same error; otherwise leaves the frame filled as specified |
| Preprocessing.BasePreprocessing | src/components/data_preprocessing.py:39-126 | the statement-by-statement preprocessing returns exactly the composition of its blocks, errors included |
| Pipeline.TransformerFile.constructor | src/components/data_preprocessing.py:226-228 | a transformer file starts with the given content, a saved transformer or none |
| Pipeline.TransformerFile.Dump | src/components/data_preprocessing.py:143 | dumping replaces the saved transformer |
| Pipeline.PreprocessTrain | src/components/data_preprocessing.py:128-149 | the training output and the saved file are as specified; the file changes only when base preprocessing succeeds |
| Pipeline.FitSaveResample | src/components/data_preprocessing.py:139-147 | fit, save and optional SMOTE give the specified output and save the transformer fitted on X |
| Pipeline.PreprocessTest | src/components/data_preprocessing.py:151-162 | the test output is the base preprocessing transformed by the given transformer |
| Pipeline.PreprocessPipeline | src/components/data_preprocessing.py:164-177 | the pipeline output is train then test, and the file holds the transformer fitted on the training set |
| Pipeline.TrainFitsOnTrainingX | src/components/data_preprocessing.py:137-147 | the transformer is fitted on and saved from the training credit scores; training fails iff base preprocessing fails or SMOTE refuses |
| Pipeline.TrainWithoutSmote | src/components/data_preprocessing.py:140-145 | without SMOTE only the credit score changes and y is kept |
| Pipeline.TestSeesOnlyTrainingTransformer | src/components/data_preprocessing.py:174-175 | the test output depends on the training set only through its credit-score column |
| Pipeline.TestUsesTrainingFit | src/components/data_preprocessing.py:160-175 | every test credit score is the training-fitted transform of its own value, and the rest of the row and y are unchanged |
| Prediction.ReasonCells | src/components/data_preprocessing.py:186-187 | the loop sets one cell per fixed reason, 1 for the selected reason only |
| Prediction.FirstUnencodable | src/components/data_preprocessing.py:216-219 | no failing column iff every row maps in all four columns |
| Prediction.EncodeColumn | src/components/data_preprocessing.py:216-219 | `map(...).astype(int)` fails iff some row has an unmapped label; otherwise each code maps back to its row |
| Prediction.LogTransform | src/components/data_preprocessing.py:222-224 | the in-place loop over the five columns leaves the frame as specified |
| Prediction.LogColumnsEffect | src/components/data_preprocessing.py:222-224 | log1p goes to the five columns, not to loan_coapplicant, and nothing else changes |
| Prediction.AverageColumn | src/components/data_preprocessing.py:234 | each row gets the parsed average of its own ratings text |
| Prediction.PredictionPreprocess | src/components/data_preprocessing.py:179-243 | the whole prediction path returns exactly its specification, errors included |
| Prediction.PredictionErrors | src/components/data_preprocessing.py:185-232 | it fails iff the frame is empty, some row has an unmapped category, or no transformer is saved; an empty frame gives the empty-input error, an unmapped education level the NaN-to-int error on that column, a missing file the transformer-not-found error |
| Prediction.PredictionShape | src/components/data_preprocessing.py:179-239 | success keeps one output row per input row, each built from the first row's reason |
| Prediction.PredictionOneHot | src/components/data_preprocessing.py:182-187 | every output row has six dummy cells, 1 exactly at the first row's reason |
| Prediction.BusinessExpansionAllZero | src/components/data_preprocessing.py:182-187 | "Business Expansion" gives six zero cells |
| Prediction.UnknownReasonAllZero | src/components/data_preprocessing.py:182-187 | any reason outside the six gives six zero cells |
| Prediction.PredictedValues | src/components/data_preprocessing.py:216-234 | each output cell: codes that index back to their labels, log1p on the five columns, the transformed credit score, the parsed rating average, no imputation |
| Prediction.PredictionUsesTrainingFit | src/components/data_preprocessing.py:143-230 | prediction transforms credit scores with the transformer fitted on the training features |
| Prediction.CoapplicantSkew | src/components/data_preprocessing.py:115-219 | training feeds the model log1p of the co-applicant code, while prediction feeds the bare code |
| Prediction.CoapplicantYesDiffers | src/components/data_preprocessing.py:115-219 | for "Yes" the two paths feed different values whenever log1p(1) is not 1 |

## Left out

- The train/test split (`split_data`, scikit-learn's `train_test_split`) is not modelled. The pipeline takes the two subsets as inputs.
- The numerics of `PowerTransformer` (Yeo-Johnson fitting), SMOTE and `np.log1p` are function parameters. A fitted transformer is identified by the column it was fitted on.
- File and system I/O is not modelled: `pd.read_csv`, `os.makedirs`, `os.path.exists`, `joblib.load`, logging and the `CustomException` wrapper. The saved transformer is the `TransformerFile` object. Every exception is one error value.
- Random draws are inputs: the platform choice, the rating draws and the rows `df.sample(frac=ratio)` picks.
- Ingestion.InjectMissing: the sample size `frac * n` is not modelled. Any set of rows per column is accepted.
- The rest of the data generator (income, seasonal effects, feedback noise, penalties) and its sanity-check asserts are not modelled.
- The `if col in df.columns` check of the prediction log loop is not modelled. The five columns are always present in an `Application`.
- Column dropping is fixed by the record types: the dropped columns are not fields of `FeatureRow`.
- Floating point is not modelled. Values are exact reals, and ratings are whole tenths, so `round(x, 1)` and float parsing are exact.
- Text.ParseReal accepts plain decimals only (an optional sign, digits, at most one '.'). Python's `float()` also accepts exponents ("1e1"), "inf", "nan", underscores and non-ASCII digits. A prediction item such as "Zomato:1e1" is averaged by the source but skipped by the model.
- The chained `fillna(..., inplace=True)` calls on single columns (src/components/data_preprocessing.py:63-64 and 75-80) are modelled as updating the frame. That holds without pandas copy-on-write; under copy-on-write they would leave the frame unchanged.
- The model assumes a correctly configured instance. `DataPreprocessingConfig` (src/entity/config_entity.py:11-14) has no `root_dir` or `transformer_name`, so the transformer path at src/components/data_preprocessing.py:141 and 226 would raise AttributeError as written. `pd.read_csv(df)` at line 172 is given a DataFrame by its caller (src/pipeline/__init__.py:23). Both are configuration and loading, not modelled.
- DatasetProperties.ImputedCategories: the category combinations are compared as sets of present values, not as multisets of rows. That is all the mode-error statements need.
- Pipeline.TrainWithoutSmote: the SMOTE branch is only characterised by when it fails, not by the rows it adds.
- The web app, drift detection, MLflow registration, model building and evaluation, and configuration loading are not part of this model.
