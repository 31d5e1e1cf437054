# Perceptron research code, modelled in Dafny

This project models the computational core of a teaching repository about
perceptrons. The core covers:

- the logic-gate datasets and their linear-separability table;
- the elementwise activations;
- two single-neuron learners: Rosenblatt's online perceptron and a batch single-layer perceptron;
- two multi-layer networks: a general one over a list of layer sizes, and a fixed two-layer network trained by backpropagation;
- the evaluation code that scores a model and repeats an experiment over several random seeds;
- the two verbal interpreters of effect size and statistical power.

Numbers are Dafny `real`. A numpy vector is a `seq<real>` and a numpy matrix a
sequence of rows. The learners are classes whose fields are reassigned where
the Python objects update arrays in place. Each of their methods is proved
against pure specification functions, such as one online sweep, one batch
step, one forward pass or one backpropagation update. The properties the
code promises are then proved about those functions.

Modules, one file each:

- `Wrappers`: `Option` and `Result`. A Python exception becomes a `Failure` carrying the exception's message.
- `Vectors` and `Matrices`: the numpy operations the learners use.
- `Activation`: `activation.py`.
- `DataUtils`: `data_utils.py`.
- `Training`: the epoch loop shared by the learners' `fit` methods, with its stopping rule as a parameter.
- `RosenblattPerceptron`: `perceptron.py`.
- `SingleLayer`: `single_layer_perceptron.py`.
- `MultiLayer`: `multi_layer_perceptron.py`.
- `Mlp`: `mlp.py`. Its forward pass and update are also proved equal to those of `MultiLayer` for layer sizes `[input, hidden, output]`.
- `Evaluation`: `evaluate_model` and `run_experiment` of `evaluation.py`.
- `StatisticalAnalysis`: `interpret_cohens_d` and `interpret_power` of `statistical_analysis.py`.

Sigmoid, tanh and log are transcendental. They are passed in as function
values, and the only facts known about them are the ranges of sigmoid, (0, 1),
and of tanh, (-1, 1). Random initial weights are constructor parameters.

## Model

| member | source | states |
|---|---|---|
| Activation.Step | 03-implementation/perceptron-example/src/activation.py:11-24 | the step is 0 or 1, and 1 exactly when `x >= 0`, so it is 1 at 0 |
| Activation.SigmoidDerivative | 03-implementation/perceptron-example/src/activation.py:47-60 | for an argument in [0, 1] the slope `s(1-s)` lies in [0, 1/4], it is positive inside (0, 1) and 0 at both ends |
| Activation.SigmoidDerivativeSymmetric | 03-implementation/perceptron-example/src/activation.py:60 | `s` and `1 - s` give the same slope |
| Activation.SigmoidDerivativeOfOutput | 03-implementation/perceptron-example/src/activation.py:27-60 | applied to a sigmoid output, the derivative lies in (0, 1/4] |
| Activation.TanhDerivative | 03-implementation/perceptron-example/src/activation.py:81-91 | for `t` in (-1, 1) the slope `1 - t²` lies in (0, 1], and it is 1 at `t = 0` |
| Activation.TanhDerivativeOfOutput | 03-implementation/perceptron-example/src/activation.py:63-91 | applied to a tanh output, the derivative lies in (0, 1] |
| Activation.Relu | 03-implementation/perceptron-example/src/activation.py:94-109 | ReLU is non-negative, is `x` for `x >= 0` and 0 below |
| Activation.ReluIdempotent | 03-implementation/perceptron-example/src/activation.py:109 | applying ReLU twice is applying it once |
| Activation.ReluDerivative | 03-implementation/perceptron-example/src/activation.py:112-122 | the derivative is 0 or 1, and 1 exactly when `x > 0`, so 0 at 0 |
| DataUtils.GenerateLogicGateData | 03-implementation/perceptron-example/src/data_utils.py:13-47 | succeeds exactly for the six gate names; the inputs are the four rows (0,0), (0,1), (1,0), (1,1) for every gate; any other name is an error |
| DataUtils.GateLabelsAreBooleanFunctions | 03-implementation/perceptron-example/src/data_utils.py:33-40 | every label is the named boolean function of its input row |
| DataUtils.NegatedGatesAreComplements | 03-implementation/perceptron-example/src/data_utils.py:34-39 | NAND, NOR and XNOR labels are the complements of AND, OR and XOR |
| DataUtils.AnalyzeLinearSeparability | 03-implementation/perceptron-example/src/data_utils.py:90-110 | the table has exactly the six gates, True exactly for AND, OR, NAND and NOR |
| DataUtils.XorNotSeparable | 03-implementation/perceptron-example/src/data_utils.py:102-103 | no threshold unit `step(w1 x1 + w2 x2 + b)` reproduces XOR |
| DataUtils.XnorNotSeparable | 03-implementation/perceptron-example/src/data_utils.py:102-103 | no threshold unit reproduces XNOR |
| DataUtils.SeparabilityTableIsCorrect | 03-implementation/perceptron-example/src/data_utils.py:99-108 | a gate is marked True exactly when some threshold unit reproduces its labels |
| RosenblattPerceptron.PredictOne | 03-implementation/perceptron-example/src/perceptron.py:55-58 | a single prediction is 0 or 1, and 1 exactly when `x . w + b >= 0` |
| RosenblattPerceptron.ApplyError | 03-implementation/perceptron-example/src/perceptron.py:83-90 | a zero error leaves weights and bias unchanged; the absolute error is added to the running total in every case |
| RosenblattPerceptron.Visit | 03-implementation/perceptron-example/src/perceptron.py:78-90 | one visit keeps the weight length |
| RosenblattPerceptron.OnlineSweep | 03-implementation/perceptron-example/src/perceptron.py:76-90 | a sweep visits the samples in dataset order with the parameters left by the earlier visits; it keeps the weight length and its summed error is non-negative |
| RosenblattPerceptron.SweepErrorBounds | 03-implementation/perceptron-example/src/perceptron.py:83-84 | with 0/1 labels the summed error of `k` visits lies in [0, k] |
| RosenblattPerceptron.VisitZeroError | 03-implementation/perceptron-example/src/perceptron.py:80-90 | a visit adds no error exactly when it predicts its sample correctly, and then it changes nothing |
| RosenblattPerceptron.SweepZeroError | 03-implementation/perceptron-example/src/perceptron.py:76-90 | a sweep has zero error exactly when the starting parameters classify every visited sample, and then it leaves them unchanged |
| RosenblattPerceptron.VisitError | 03-implementation/perceptron-example/src/perceptron.py:80-84 | with a 0/1 label a visit's error is 0, 1 or -1, nonzero exactly when the current parameters mispredict the sample, and it adds 1 to the summed error exactly then |
| RosenblattPerceptron.VisitMistakes | 03-implementation/perceptron-example/src/perceptron.py:78-84 | the number of visit-time mistakes among the first `k` samples is at most `k` |
| RosenblattPerceptron.SweepCountsMistakes | 03-implementation/perceptron-example/src/perceptron.py:76-84 | over 0/1 labels the summed error of a sweep equals the number of samples mispredicted at the time they were visited |
| RosenblattPerceptron.SweepMeanError | 03-implementation/perceptron-example/src/perceptron.py:76-92 | the mean error of a sweep over 0/1 labels is the fraction of samples misclassified by the parameters in force when each was visited; it lies in [0, 1], is 0 exactly when the parameters classify every sample, and then nothing changed |
| RosenblattPerceptron.OnlineFit | 03-implementation/perceptron-example/src/perceptron.py:109-117 | a run keeps the weight length and records at most `n` errors |
| RosenblattPerceptron.OnlineFitHistory | 03-implementation/perceptron-example/src/perceptron.py:109-117 | every recorded error lies in [0, 1]; no entry but the last is 0; a run shorter than `n` ended on a 0; a run that ended on a 0 classifies every training sample |
| RosenblattPerceptron.OnlineFitStep | 03-implementation/perceptron-example/src/perceptron.py:111-117 | after one sweep the run stops on a zero error and otherwise continues as a run of `n - 1` sweeps from the new parameters |
| RosenblattPerceptron.MeanErrorBounds | 03-implementation/perceptron-example/src/perceptron.py:92 | a summed error in [0, m] gives a mean in [0, 1] that is 0 only for a zero sum |
| RosenblattPerceptron.Perceptron.constructor | 03-implementation/perceptron-example/src/perceptron.py:22-42 | the weights have `n_features` entries, the bias is 0 and the history is empty |
| RosenblattPerceptron.Perceptron.Predict | 03-implementation/perceptron-example/src/perceptron.py:44-60 | one 0/1 label per row, 1 exactly when `X[i] . w + b >= 0` |
| RosenblattPerceptron.Perceptron.Score | 03-implementation/perceptron-example/src/perceptron.py:121-134 | the accuracy lies in [0, 1] and is 1 exactly when every row is classified correctly |
| RosenblattPerceptron.Perceptron.TrainStep | 03-implementation/perceptron-example/src/perceptron.py:62-95 | the new parameters are the sweep's; the mean absolute error is returned and appended to the history, and nothing else changes |
| RosenblattPerceptron.Perceptron.Fit | 03-implementation/perceptron-example/src/perceptron.py:97-119 | the history is cleared and the final parameters and history are those of `OnlineFit`; empty data is accepted when no sweep runs |
| RosenblattPerceptron.Perceptron.GetDecisionBoundary | 03-implementation/perceptron-example/src/perceptron.py:136-149 | succeeds exactly for two features, and the perceptron predicts 1 exactly on the side `w1 x1 + w2 x2 + b >= 0` of the returned line |
| SingleLayer.StepActivation | 03-implementation/perceptron-example/src/single_layer_perceptron.py:48-61 | the step is 0 or 1, and 1 exactly when `x > 0`, so 0 at 0 (unlike `step_function`) |
| SingleLayer.Predictions | 03-implementation/perceptron-example/src/single_layer_perceptron.py:63-82 | one 0/1 label per row, 1 exactly when `X[i] . w + b > 0` |
| SingleLayer.Update | 03-implementation/perceptron-example/src/single_layer_perceptron.py:104-105 | one application of the rule keeps the weight length |
| SingleLayer.ApplyErrors | 03-implementation/perceptron-example/src/single_layer_perceptron.py:103-105 | the update loop keeps the weight length |
| SingleLayer.ApplyErrorsWeight | 03-implementation/perceptron-example/src/single_layer_perceptron.py:103-104 | after `k` updates weight `j` is `w[j] + lr * sum_{i<k} e_i X_i[j]` |
| SingleLayer.ApplyErrorsBias | 03-implementation/perceptron-example/src/single_layer_perceptron.py:103-105 | after `k` updates the bias is `b + lr * sum_{i<k} e_i` |
| SingleLayer.ApplyErrorsClosedForm | 03-implementation/perceptron-example/src/single_layer_perceptron.py:99-105 | the loop's net effect is `w + lr * sum_i e_i X_i` and `b + lr * sum_i e_i`, with every error taken from the parameters at entry |
| SingleLayer.ApplyZeroErrors | 03-implementation/perceptron-example/src/single_layer_perceptron.py:103-105 | with all errors 0 the loop leaves weights and bias unchanged |
| SingleLayer.SumMismatches | 03-implementation/perceptron-example/src/single_layer_perceptron.py:108 | the mismatch indicators sum to the number of wrong predictions |
| SingleLayer.SquaredErrorsCountMismatches | 03-implementation/perceptron-example/src/single_layer_perceptron.py:100-108 | with 0/1 labels and predictions the squared errors sum to the number of mismatches |
| SingleLayer.LossIsErrorRate | 03-implementation/perceptron-example/src/single_layer_perceptron.py:108 | the mean squared error over 0/1 values is `1 - accuracy`, lies in [0, 1], and is 0 exactly when every prediction is right |
| SingleLayer.BatchStep | 03-implementation/perceptron-example/src/single_layer_perceptron.py:84-110 | a training step keeps the weight length |
| SingleLayer.BatchStepLoss | 03-implementation/perceptron-example/src/single_layer_perceptron.py:99-110 | over 0/1 labels the loss of a step is the misclassification rate before the update, in [0, 1], and a zero loss leaves the parameters unchanged |
| SingleLayer.EpochOf | 03-implementation/perceptron-example/src/single_layer_perceptron.py:125-137 | one epoch keeps the weight length |
| SingleLayer.EpochStepClosed | 03-implementation/perceptron-example/src/single_layer_perceptron.py:125-137 | an epoch can run from every correctly shaped parameter value and keeps the shape |
| SingleLayer.BatchFit | 03-implementation/perceptron-example/src/single_layer_perceptron.py:125-146 | a run keeps the weight length |
| SingleLayer.FitLoopIsBatchFit | 03-implementation/perceptron-example/src/single_layer_perceptron.py:125-146 | the epochs a loop recorded are `BatchFit`'s when they are chained, only the last converged, and fewer than `n` ran only when the last one did |
| SingleLayer.History.Append | 03-implementation/perceptron-example/src/single_layer_perceptron.py:134-137 | appending aligned histories keeps the four lists the same length |
| SingleLayer.HistoryOf | 03-implementation/perceptron-example/src/single_layer_perceptron.py:134-137 | the history of a run has one loss, accuracy, weights and bias entry per epoch, taken from that epoch |
| SingleLayer.HistoryOfSnoc | 03-implementation/perceptron-example/src/single_layer_perceptron.py:134-137 | recording one more epoch appends one entry to each list |
| SingleLayer.EpochStepFacts | 03-implementation/perceptron-example/src/single_layer_perceptron.py:125-143 | over 0/1 labels an epoch's loss is the entry misclassification rate, loss and accuracy lie in [0, 1], and an accuracy of 1 means the new parameters predict every label |
| SingleLayer.XorNotSeparableStrict | 03-implementation/perceptron-example/src/single_layer_perceptron.py:61-82 | under the strict step no weights and bias reproduce the four XOR labels |
| SingleLayer.XorAccuracyBound | 03-implementation/perceptron-example/src/single_layer_perceptron.py:130-131 | the accuracy on XOR is at most 3/4 for every weights and bias |
| SingleLayer.XorRunsAllEpochs | 03-implementation/perceptron-example/src/single_layer_perceptron.py:125-146 | training on XOR never stops early: a run records exactly `n` epochs |
| SingleLayer.PerfectAccuracy | 03-implementation/perceptron-example/src/single_layer_perceptron.py:131 | an accuracy of 1 means the predictions are the labels |
| SingleLayer.EpochExactIfConverged | 03-implementation/perceptron-example/src/single_layer_perceptron.py:130-146 | an epoch with accuracy 1 leaves parameters that predict every label |
| SingleLayer.ConvergedFitIsExact | 03-implementation/perceptron-example/src/single_layer_perceptron.py:125-146 | a run that ended on accuracy 1, which is every run that stopped early, predicts every training label |
| SingleLayer.SingleLayerPerceptron.constructor | 03-implementation/perceptron-example/src/single_layer_perceptron.py:20-46 | the initial parameters are the given ones and the four history lists are empty |
| SingleLayer.SingleLayerPerceptron.Predict | 03-implementation/perceptron-example/src/single_layer_perceptron.py:63-82 | one 0/1 label per row, 1 exactly when `X[i] . w + b > 0` |
| SingleLayer.SingleLayerPerceptron.TrainStep | 03-implementation/perceptron-example/src/single_layer_perceptron.py:84-110 | the new parameters and the loss are `BatchStep`'s; over 0/1 labels the loss lies in [0, 1] and a zero loss changes nothing |
| SingleLayer.SingleLayerPerceptron.Fit | 03-implementation/perceptron-example/src/single_layer_perceptron.py:112-148 | the final parameters are `BatchFit`'s and the history gains exactly its epochs' entries, earlier entries kept |
| SingleLayer.SingleLayerPerceptron.FitEpoch | 03-implementation/perceptron-example/src/single_layer_perceptron.py:126-137 | one pass of the loop extends the run by the epoch `EpochOf` reports and appends its entries to the history |
| SingleLayer.SingleLayerPerceptron.GetDecisionBoundary | 03-implementation/perceptron-example/src/single_layer_perceptron.py:150-160 | returns the weights and bias, and the perceptron labels a point 1 exactly on the positive side of the hyperplane they define |
| SingleLayer.SingleLayerPerceptron.Reset | 03-implementation/perceptron-example/src/single_layer_perceptron.py:162-171 | the parameters are the fresh ones and the history is empty |
| MultiLayer.ParseActivation | 03-implementation/perceptron-example/src/multi_layer_perceptron.py:62-74 | the names sigmoid, tanh and relu select their activation and every other name is a `ValueError` with the source's message |
| MultiLayer.ParseActivationName | 03-implementation/perceptron-example/src/multi_layer_perceptron.py:62-74 | every activation is selected by its own name |
| MultiLayer.Configure | 03-implementation/perceptron-example/src/multi_layer_perceptron.py:20-54 | construction succeeds exactly when no layer size before the last is 0 and the activation name is known; a zero size fails first, with the division-by-zero error |
| MultiLayer.Activate | 03-implementation/perceptron-example/src/multi_layer_perceptron.py:76-95 | sigmoid lies in (0, 1), tanh in (-1, 1), and ReLU is non-negative and positive exactly for positive input |
| MultiLayer.Derivative | 03-implementation/perceptron-example/src/multi_layer_perceptron.py:80-99 | the derivative of the weighted input lies in [0, 1], at most 1/4 for sigmoid, never 0 for sigmoid and tanh over exact reals, and for ReLU 1 exactly where the unit is active and 0 elsewhere |
| MultiLayer.WeightedInput | 03-implementation/perceptron-example/src/multi_layer_perceptron.py:115 | `np.dot(a, W[i]) + b[i]` has one row per sample and one column per unit of the next layer |
| MultiLayer.Forward | 03-implementation/perceptron-example/src/multi_layer_perceptron.py:111-127 | the first `n` layers give `n + 1` activations, the input first, and `n` weighted inputs, each of its layer's shape |
| MultiLayer.ForwardAll | 03-implementation/perceptron-example/src/multi_layer_perceptron.py:101-127 | the whole pass gives one activation per layer size and one weighted input per layer |
| MultiLayer.ForwardLayer | 03-implementation/perceptron-example/src/multi_layer_perceptron.py:114-125 | each weighted input is computed from the previous activation, and each activation applies the configured function in hidden layers and sigmoid in the output layer |
| MultiLayer.Output | 03-implementation/perceptron-example/src/multi_layer_perceptron.py:127 | the last activation has one row per sample and one column per output unit |
| MultiLayer.OutputInUnitInterval | 03-implementation/perceptron-example/src/multi_layer_perceptron.py:119-123 | behind at least one layer every output lies strictly between 0 and 1 |
| MultiLayer.HiddenDelta | 03-implementation/perceptron-example/src/multi_layer_perceptron.py:153-154 | a hidden delta has the shape of its layer |
| MultiLayer.Deltas | 03-implementation/perceptron-example/src/multi_layer_perceptron.py:146-155 | one delta per layer, the last `activations[-1] - y`, each earlier one from the one after it and the weights at entry |
| MultiLayer.UpdatedWeight | 03-implementation/perceptron-example/src/multi_layer_perceptron.py:159 | the updated weight matrix keeps its shape |
| MultiLayer.UpdatedBias | 03-implementation/perceptron-example/src/multi_layer_perceptron.py:160 | the updated bias row keeps its shape |
| MultiLayer.Backward | 03-implementation/perceptron-example/src/multi_layer_perceptron.py:129-160 | backpropagation computes every delta first, then moves every layer, and keeps every shape |
| MultiLayer.HiddenDeltaZero | 03-implementation/perceptron-example/src/multi_layer_perceptron.py:153-154 | a zero delta gives a zero delta one layer back |
| MultiLayer.DeltasZero | 03-implementation/perceptron-example/src/multi_layer_perceptron.py:146-155 | a zero output error makes every delta zero |
| MultiLayer.ZeroErrorIsFixedPoint | 03-implementation/perceptron-example/src/multi_layer_perceptron.py:143-160 | when the outputs equal the labels no weight and no bias changes |
| MultiLayer.OutputDelta | 03-implementation/perceptron-example/src/multi_layer_perceptron.py:147 | the output delta has one row per sample |
| MultiLayer.OutputDeltaTowardLabel | 03-implementation/perceptron-example/src/multi_layer_perceptron.py:147 | over 0/1 labels and exact reals the output delta is never 0, lies in (-1, 1), and is positive exactly where the label is 0 |
| MultiLayer.SingleOutputProbabilities | 03-implementation/perceptron-example/src/multi_layer_perceptron.py:162-173 | with one output unit there is one probability per sample, its output, strictly between 0 and 1 |
| MultiLayer.Threshold | 03-implementation/perceptron-example/src/multi_layer_perceptron.py:175-186 | one 0/1 label per probability, 1 exactly above one half |
| MultiLayer.LogLikelihoodOfLabel | 03-implementation/perceptron-example/src/multi_layer_perceptron.py:199-203 | each sample's term is the log of the probability given to its true label, padded by epsilon |
| MultiLayer.CrossEntropyOfLabels | 03-implementation/perceptron-example/src/multi_layer_perceptron.py:188-203 | over 0/1 labels the loss is minus the mean log of the probability given to each true label |
| MultiLayer.TrainingEpoch | 03-implementation/perceptron-example/src/multi_layer_perceptron.py:219-229 | an epoch keeps the data and parameter shapes |
| MultiLayer.EpochStepClosed | 03-implementation/perceptron-example/src/multi_layer_perceptron.py:219-229 | an epoch can run from every correctly shaped network and keeps the shapes |
| MultiLayer.FitRun | 03-implementation/perceptron-example/src/multi_layer_perceptron.py:219-242 | a run keeps the parameter shapes |
| MultiLayer.FitRunLength | 03-implementation/perceptron-example/src/multi_layer_perceptron.py:219-242 | a run has at most `epochs` epochs, at least one when `epochs > 0`, and no epoch but the last met the stopping rule |
| MultiLayer.FitLoopIsFitRun | 03-implementation/perceptron-example/src/multi_layer_perceptron.py:219-242 | the epochs a loop recorded are `FitRun`'s when they are chained, only the last converged, and fewer than `n` ran only when the last one did |
| MultiLayer.ProgressStep | 03-implementation/perceptron-example/src/multi_layer_perceptron.py:219-233 | one more epoch recorded in the history keeps the loop's progress invariant |
| MultiLayer.ProgressIsFitRun | 03-implementation/perceptron-example/src/multi_layer_perceptron.py:219-244 | where the loop leaves off, the parameters and history are `FitRun`'s |
| MultiLayer.NoneConvergedSnoc | 03-implementation/perceptron-example/src/multi_layer_perceptron.py:239-242 | no epoch of the extended run met the stopping rule when none before did and the new one did not |
| MultiLayer.EpochFitsIfConverged | 03-implementation/perceptron-example/src/multi_layer_perceptron.py:227-242 | an epoch that met the stopping rule leaves a network that predicts every label with a loss below 0.01 |
| MultiLayer.ConvergedEpochsFit | 03-implementation/perceptron-example/src/multi_layer_perceptron.py:227-242 | every epoch meeting the stopping rule leaves a fitting network |
| MultiLayer.ConvergedFitIsExact | 03-implementation/perceptron-example/src/multi_layer_perceptron.py:219-244 | a run that stopped early, or whose last epoch met the stopping rule, ends with a network that predicts every label with a loss below 0.01 |
| MultiLayer.History.Append | 03-implementation/perceptron-example/src/multi_layer_perceptron.py:232-233 | appending aligned histories keeps the two lists the same length |
| MultiLayer.HistoryOf | 03-implementation/perceptron-example/src/multi_layer_perceptron.py:232-233 | one loss and one accuracy entry per epoch, taken from that epoch |
| MultiLayer.HistoryOfSnoc | 03-implementation/perceptron-example/src/multi_layer_perceptron.py:232-233 | recording one more epoch appends one entry to each list |
| MultiLayer.ZeroBiases | 03-implementation/perceptron-example/src/multi_layer_perceptron.py:49 | every layer's bias is a zero row as wide as the layer |
| MultiLayer.MultiLayerPerceptron.constructor | 03-implementation/perceptron-example/src/multi_layer_perceptron.py:20-60 | the configuration is stored, the weights are the given ones, the biases are zero and the history is empty |
| MultiLayer.MultiLayerPerceptron.ForwardPropagation | 03-implementation/perceptron-example/src/multi_layer_perceptron.py:101-127 | the lists the loop builds are `ForwardAll`'s |
| MultiLayer.MultiLayerPerceptron.BackwardPropagation | 03-implementation/perceptron-example/src/multi_layer_perceptron.py:129-160 | the new parameters are `Backward`'s of the parameters at entry |
| MultiLayer.MultiLayerPerceptron.ComputeDeltas | 03-implementation/perceptron-example/src/multi_layer_perceptron.py:143-155 | the deltas the loop builds by prepending are `Deltas`' |
| MultiLayer.MultiLayerPerceptron.UpdateLayers | 03-implementation/perceptron-example/src/multi_layer_perceptron.py:158-160 | every layer's new weights and bias are `UpdatedWeight` and `UpdatedBias` of the parameters at entry |
| MultiLayer.MultiLayerPerceptron.UpdateLayer | 03-implementation/perceptron-example/src/multi_layer_perceptron.py:159-160 | one pass updates layer `j` and leaves every other layer unchanged |
| MultiLayer.MultiLayerPerceptron.PredictProba | 03-implementation/perceptron-example/src/multi_layer_perceptron.py:162-173 | the probabilities are the last activation flattened |
| MultiLayer.MultiLayerPerceptron.Predict | 03-implementation/perceptron-example/src/multi_layer_perceptron.py:175-186 | the labels threshold the probabilities at one half |
| MultiLayer.MultiLayerPerceptron.ComputeLoss | 03-implementation/perceptron-example/src/multi_layer_perceptron.py:188-203 | the loss is the cross-entropy of the probabilities |
| MultiLayer.MultiLayerPerceptron.Fit | 03-implementation/perceptron-example/src/multi_layer_perceptron.py:205-244 | the final parameters are `FitRun`'s and the history gains exactly its epochs' entries, earlier entries kept |
| MultiLayer.MultiLayerPerceptron.FitLoop | 03-implementation/perceptron-example/src/multi_layer_perceptron.py:219-242 | the loop makes at most `epochs` epochs, none but the last converged, and fewer only when the last did |
| MultiLayer.MultiLayerPerceptron.FitEpoch | 03-implementation/perceptron-example/src/multi_layer_perceptron.py:220-233 | one pass extends the run by the epoch `TrainingEpoch` reports and keeps the progress invariant |
| MultiLayer.MultiLayerPerceptron.TrainEpoch | 03-implementation/perceptron-example/src/multi_layer_perceptron.py:220-229 | the new parameters, loss and accuracy are `TrainingEpoch`'s |
| MultiLayer.MultiLayerPerceptron.Reset | 03-implementation/perceptron-example/src/multi_layer_perceptron.py:246-260 | the weights are the fresh ones, the biases zero and the history empty |
| MultiLayer.Create | 03-implementation/perceptron-example/src/multi_layer_perceptron.py:20-74 | construction succeeds exactly when `Configure` accepts and fails with its message otherwise; a new perceptron stores the layer sizes, the activation and the learning rate, holds the given weights and zero biases, and has an empty history |
| Training.Train | 03-implementation/perceptron-example/src/single_layer_perceptron.py:125-146 | for any epoch that keeps the shape invariant, the loop's final parameters keep it too |
| Training.TrainIsRun | 03-implementation/perceptron-example/src/single_layer_perceptron.py:125-146 | the loop runs at most `n` epochs, each from the parameters the previous one left, stops after the first epoch meeting the stopping rule and never before, and runs at least one epoch when `n > 0` |
| Training.RunIsTrain | 03-implementation/perceptron-example/src/single_layer_perceptron.py:125-146 | the loop's run is the only run with those properties |
| Training.LoopIsTrain | 03-implementation/perceptron-example/src/multi_layer_perceptron.py:219-242 | epochs chained one from the other, none but the last meeting the stopping rule, and either `n` of them or ending on a stop, are exactly what the loop produces |
| Training.ChainedSnoc | 03-implementation/perceptron-example/src/multi_layer_perceptron.py:219-242 | running one more epoch from where the last one left the parameters extends the chain and keeps the shape invariant |
| Training.TrainStopsAt | 03-implementation/perceptron-example/src/single_layer_perceptron.py:142-146 | when every epoch that meets the stopping rule leaves parameters with property `fin`, a run that ended on a stop ends with `fin` |
| Training.TrainNeverStops | 03-implementation/perceptron-example/src/single_layer_perceptron.py:125 | when no epoch can meet the stopping rule, the loop runs all `n` epochs |
| Vectors.AddScaledZero | 03-implementation/perceptron-example/src/single_layer_perceptron.py:103-105 | a zero error leaves the weights unchanged |
| Vectors.SumBounds | 03-implementation/perceptron-example/src/perceptron.py:84-92 | a sum of `n` entries in `[lo, hi]` lies in `[n lo, n hi]` |
| Vectors.SumZero | 03-implementation/perceptron-example/src/single_layer_perceptron.py:108 | a sum of non-negative entries is zero exactly when every entry is zero |
| Vectors.MatchCount | 03-implementation/perceptron-example/src/perceptron.py:133 | the number of positions where prediction and label agree, at most the length |
| Vectors.MatchCountAll | 03-implementation/perceptron-example/src/perceptron.py:133 | every position matches exactly when the count equals the length |
| Vectors.Accuracy | 03-implementation/perceptron-example/src/perceptron.py:121-134 | `np.mean(predictions == y)` lies in \[0, 1\] and is 1 exactly when every prediction equals its label |
| Vectors.FractionBounds | 03-implementation/perceptron-example/src/evaluation.py:37-38 | `k / n` for `k <= n` lies in \[0, 1\] and is 1 exactly when `k == n` |
| Matrices.FlattenColumn | 03-implementation/perceptron-example/src/mlp.py:88 | flattening a one-column matrix gives its column |
| Matrices.FlattenLength | 03-implementation/perceptron-example/src/mlp.py:88 | flattening an `(r, c)` matrix gives `r c` entries |
| Matrices.MatMulZeroLeft | 03-implementation/perceptron-example/src/mlp.py:131 | a zero error gives a zero weight gradient |
| Matrices.ColumnSumZero | 03-implementation/perceptron-example/src/mlp.py:132 | a zero error gives a zero bias gradient, summed or averaged |
| Matrices.SubScaledZero | 03-implementation/perceptron-example/src/mlp.py:141-144 | subtracting a scaled zero gradient leaves a parameter unchanged |
| Matrices.ColumnMeanIsScaledSum | 03-implementation/perceptron-example/src/multi_layer_perceptron.py:158-160 | a column mean is `1/m` times the column sum, the form `backpropagation` uses |
| Matrices.ScaleScale | 03-implementation/perceptron-example/src/mlp.py:131 | scaling twice is scaling by the product |
| Mlp.ForwardPass | 03-implementation/perceptron-example/src/mlp.py:68-73 | the four stored arrays have shapes `(m, hidden)`, `(m, hidden)`, `(m, output)` and `(m, output)` |
| Mlp.ActivationsInUnitInterval | 03-implementation/perceptron-example/src/mlp.py:69-73 | every hidden and output activation lies strictly between 0 and 1 |
| Mlp.AsNetShaped | 03-implementation/perceptron-example/src/mlp.py:45-50 | the two layers' parameters have the shapes of the general network for sizes `[input, hidden, output]` |
| Mlp.ForwardIsGeneralForward | 03-implementation/perceptron-example/src/mlp.py:68-73 | `forward` gives the activations and weighted inputs of the general network's `forward_propagation` with sigmoid hidden units |
| Mlp.OutputError | 03-implementation/perceptron-example/src/mlp.py:126-130 | `dz2` has one row per sample and one column per output |
| Mlp.HiddenError | 03-implementation/perceptron-example/src/mlp.py:135-136 | `dz1` has one row per sample and one column per hidden unit |
| Mlp.ComputeGradients | 03-implementation/perceptron-example/src/mlp.py:120-138 | every gradient has the shape of the parameter it moves |
| Mlp.Backprop | 03-implementation/perceptron-example/src/mlp.py:141-144 | the updated parameters keep their shapes |
| Mlp.BackpropFixedPoint | 03-implementation/perceptron-example/src/mlp.py:130-144 | when every output equals its label, backpropagation changes no parameter |
| Mlp.DeltasAreErrors | 03-implementation/perceptron-example/src/mlp.py:130-136 | `dz1` and `dz2` are the general network's deltas, with the sigmoid derivative taken at `a1` instead of `z1` |
| Mlp.UpdatesAgree | 03-implementation/perceptron-example/src/mlp.py:131-144 | each layer's update is the general network's weight and bias update for the same delta |
| Mlp.BackpropIsGeneralBackward | 03-implementation/perceptron-example/src/mlp.py:110-144 | `backpropagation` leaves exactly the parameters the general network's `backward_propagation` leaves |
| Mlp.ScaleMean | 03-implementation/perceptron-example/src/mlp.py:131-144 | `lr * ((1/m) G)` is `(lr/m) G` |
| Mlp.Clip | 03-implementation/perceptron-example/src/mlp.py:102 | `np.clip` to \[1e-7, 1 - 1e-7\]: inside the range unchanged, below it the lower bound, above it the upper bound |
| Mlp.ClipComplement | 03-implementation/perceptron-example/src/mlp.py:102-107 | clipping commutes with `1 - p` |
| Mlp.LogLikelihoodOfLabel | 03-implementation/perceptron-example/src/mlp.py:104-107 | for a 0/1 label the loss term is the log of the clipped probability given to that label |
| Mlp.Predictions | 03-implementation/perceptron-example/src/mlp.py:87-88 | labels are 0/1, one per output entry, and with one output unit label `i` is 1 exactly when output `i` exceeds one half |
| Mlp.FlattenSingle | 03-implementation/perceptron-example/src/mlp.py:88 | with one output unit `flatten` gives one entry per sample |
| Mlp.PredictionsAgree | 03-implementation/perceptron-example/src/mlp.py:87-88 | `predict` gives the labels the general network predicts for the same parameters |
| Mlp.ScoreOf | 03-implementation/perceptron-example/src/mlp.py:231-232 | the score lies in \[0, 1\] and is 1 exactly when every prediction equals its label |
| Mlp.ScoreRaisesExactly | 03-implementation/perceptron-example/src/mlp.py:213-232 | the `score` on `train`'s progress line compares `m * output` predictions with `m` labels, which fails to broadcast exactly when there are two samples or more and two output units or more |
| Mlp.NatString | 03-implementation/perceptron-example/src/mlp.py:232 | the decimal digits numpy prints for a shape length in its broadcast error: only digits, and a leading zero only for 0 |
| Mlp.NatStringRoundTrip | 03-implementation/perceptron-example/src/mlp.py:232 | reading the digits back gives the length they were made from |
| Mlp.ParseMethod | 03-implementation/perceptron-example/src/mlp.py:201-206 | `'backprop'` and `'random'` select their method; any other name fails with `Unknown method: <name>` |
| Mlp.Update | 03-implementation/perceptron-example/src/mlp.py:201-204 | the chosen update keeps the parameter shapes |
| Mlp.TrainingEpoch | 03-implementation/perceptron-example/src/mlp.py:199-211 | one pass keeps the shapes and advances the epoch counter by one |
| Mlp.EpochStepClosed | 03-implementation/perceptron-example/src/mlp.py:199-211 | every pass can run from shaped parameters and keeps them shaped |
| Mlp.TrainRun | 03-implementation/perceptron-example/src/mlp.py:199-216 | `n` passes from shaped parameters end with shaped parameters |
| Mlp.TrainRunLength | 03-implementation/perceptron-example/src/mlp.py:199 | with no stopping rule, `train` runs exactly `epochs` passes |
| Mlp.LossesSnoc | 03-implementation/perceptron-example/src/mlp.py:211 | recording one more epoch appends its loss |
| Mlp.ProgressStep | 03-implementation/perceptron-example/src/mlp.py:199-211 | one more pass, with its loss appended, keeps the loop's progress invariant |
| Mlp.ProgressIsTrainRun | 03-implementation/perceptron-example/src/mlp.py:197-216 | after `n` passes the parameters and the loss history are those of `TrainRun` |
| Mlp.MultiLayerPerceptron.constructor | 03-implementation/perceptron-example/src/mlp.py:24-55 | the weights are the given random draws, both biases are zero rows of the right width and the loss history is empty |
| Mlp.MultiLayerPerceptron.Forward | 03-implementation/perceptron-example/src/mlp.py:57-75 | stores `ForwardPass` of the current parameters and returns `(a1, a2, X)` |
| Mlp.MultiLayerPerceptron.Predict | 03-implementation/perceptron-example/src/mlp.py:77-88 | returns `Predictions` of the current parameters, leaving that forward pass stored |
| Mlp.MultiLayerPerceptron.Score | 03-implementation/perceptron-example/src/mlp.py:220-233 | returns `ScoreOf` the current parameters |
| Mlp.MultiLayerPerceptron.Backpropagation | 03-implementation/perceptron-example/src/mlp.py:110-144 | the new parameters are `Backprop` of the old ones, every gradient taken before any update, and the stored pass is that of the old parameters |
| Mlp.MultiLayerPerceptron.RandomWeightUpdate | 03-implementation/perceptron-example/src/mlp.py:146-180 | the new parameters are the perturbation of the old ones for that epoch, with their shapes kept |
| Mlp.MultiLayerPerceptron.TrainEpoch | 03-implementation/perceptron-example/src/mlp.py:199-211 | an unknown method fails with its message and changes nothing; otherwise the parameters are `Update`'s, the stored pass is that of the new parameters and its loss is appended to the history |
| Mlp.MultiLayerPerceptron.TrainStep | 03-implementation/perceptron-example/src/mlp.py:199-211 | one pass keeps the loop invariant tying the fields to the run so far, or fails and changes nothing |
| Mlp.MultiLayerPerceptron.RunEpochs | 03-implementation/perceptron-example/src/mlp.py:199-216 | runs `max(epochs, 0)` passes; or fails on the first pass when the method is unknown, leaving the parameters untouched; or, when the progress line's `score` cannot broadcast, fails with numpy's broadcast message after exactly one epoch |
| Mlp.MultiLayerPerceptron.Train | 03-implementation/perceptron-example/src/mlp.py:182-218 | empties the loss history; then, when `epochs > 0`, either fails on an unknown method before touching the parameters, or fails in the epoch-0 `score` (two samples or more and two outputs or more) holding the parameters and the one loss of a one-epoch `TrainRun`, or ends with the parameters of `TrainRun` and exactly one loss per epoch, `Losses` of that run |
| Evaluation.GuardedRatio | 03-implementation/perceptron-example/src/evaluation.py:37-38 | `tp / (tp + other)`, or 0 when the denominator is 0: in \[0, 1\], positive exactly when `tp > 0`, 1 exactly when `tp > 0` and `other == 0`, and times the denominator gives `tp` |
| Evaluation.F1 | 03-implementation/perceptron-example/src/evaluation.py:39 | the harmonic mean lies between precision and recall, is 0 exactly when either is 0, and is 1 exactly when both are 1 |
| Evaluation.HarmonicMean | 03-implementation/perceptron-example/src/evaluation.py:39 | `2pr/(p+r)` lies between `p` and `r`, is 0 exactly when either is 0 and 1 exactly when both are 1 |
| Evaluation.EvaluateModel | 03-implementation/perceptron-example/src/evaluation.py:13-50 | accuracy in \[0, 1\] and 1 exactly when every prediction is right; precision, recall and F1 in \[0, 1\]; precision and recall positive exactly when there is a true positive, F1 zero exactly when there is none |
| Evaluation.ConfusionTotal | 03-implementation/perceptron-example/src/evaluation.py:31-34 | for 0/1 predictions and labels the four confusion counts add up to the number of samples |
| Evaluation.MatchesAreTrue | 03-implementation/perceptron-example/src/evaluation.py:28-32 | for 0/1 data the correct predictions are the true positives plus the true negatives |
| Evaluation.AccuracyFromCounts | 03-implementation/perceptron-example/src/evaluation.py:28-34 | for 0/1 data accuracy is `(TP + TN) / n` and the four counts add up to `n` |
| Evaluation.NoMismatches | 03-implementation/perceptron-example/src/evaluation.py:33-34 | perfect predictions have no false positives and no false negatives |
| Evaluation.PerfectPredictions | 03-implementation/perceptron-example/src/evaluation.py:13-50 | perfect predictions with at least one positive score 1 on accuracy, precision, recall and F1 |
| Evaluation.SeedParams | 03-implementation/perceptron-example/src/evaluation.py:95-96 | the copy holds every given key, `random_seed` set to the seed and every other key unchanged |
| Evaluation.Prefix | 03-implementation/perceptron-example/src/evaluation.py:93 | the Python slice `s[:n]` is a prefix of `s`, of the length Python gives it for negative `n` too |
| Evaluation.DefaultSeedsUsed | 03-implementation/perceptron-example/src/evaluation.py:79-93 | without given seeds the runs use `42, 43, ...`, `max(n_runs, 0)` of them |
| Evaluation.GivenSeedsUsed | 03-implementation/perceptron-example/src/evaluation.py:93 | with given seeds the runs use the first `min(n_runs, len(seeds))` of them, in order |
| Evaluation.RunFor | 03-implementation/perceptron-example/src/evaluation.py:95-114 | a run counts as converged exactly when every test prediction equals its label |
| Evaluation.CountTrueAll | 03-implementation/perceptron-example/src/evaluation.py:132 | the count of converged runs is the number of runs exactly when all converged, and 0 exactly when none did |
| Evaluation.Min | 03-implementation/perceptron-example/src/evaluation.py:122 | `np.min` is an element of the list and no larger than any |
| Evaluation.Max | 03-implementation/perceptron-example/src/evaluation.py:123 | `np.max` is an element of the list and no smaller than any |
| Evaluation.Summarize | 03-implementation/perceptron-example/src/evaluation.py:118-134 | `0 <= min <= mean <= max <= 1` with min and max taken from the list; the convergence rate is in \[0, 1\], 1 exactly when every run converged and 0 exactly when none did; the mean epoch count is non-negative |
| Evaluation.MeanBetween | 03-implementation/perceptron-example/src/evaluation.py:120 | a mean of values in `[lo, hi]` lies in `[lo, hi]` |
| Evaluation.CollectRuns | 03-implementation/perceptron-example/src/evaluation.py:93-115 | entry `i` of each collected list is that metric of the run for seed `i` |
| Evaluation.RunExperiment | 03-implementation/perceptron-example/src/evaluation.py:53-136 | fails exactly when no seed is used (numpy's reduction of an empty list); otherwise the lists hold, in seed order, the metrics of the run for each used seed and the statistics are `Summarize` of them |
| StatisticalAnalysis.Reached | 05-analysis/perceptron-example/statistical_analysis.py:169-192 | the number of band edges a value reaches is at most the number of edges |
| StatisticalAnalysis.ReachedMonotone | 05-analysis/perceptron-example/statistical_analysis.py:169-192 | a larger value reaches at least as many band edges |
| StatisticalAnalysis.InterpretCohensD | 05-analysis/perceptron-example/statistical_analysis.py:169-180 | one of the five labels, each exactly on its band of `|d|`, closed below and open above |
| StatisticalAnalysis.CohensDByThresholds | 05-analysis/perceptron-example/statistical_analysis.py:169-180 | the label is the one indexed by the number of edges 0.2, 0.5, 0.8, 1.2 that `|d|` reaches |
| StatisticalAnalysis.CohensDSymmetric | 05-analysis/perceptron-example/statistical_analysis.py:171 | `d` and `-d` get the same label |
| StatisticalAnalysis.CohensDMonotone | 05-analysis/perceptron-example/statistical_analysis.py:169-180 | a larger `|d|` never gets a lower band |
| StatisticalAnalysis.InterpretPower | 05-analysis/perceptron-example/statistical_analysis.py:183-192 | one of the four labels, each exactly on its band of the power |
| StatisticalAnalysis.PowerByThresholds | 05-analysis/perceptron-example/statistical_analysis.py:183-192 | the label is the one indexed by the number of edges 0.4, 0.6, 0.8 the power reaches |
| StatisticalAnalysis.PowerMonotone | 05-analysis/perceptron-example/statistical_analysis.py:183-192 | a larger power never gets a lower band |

## Left out

- Floating point: every quantity is an exact real, so rounding, overflow, NaN and infinities are not modelled.
- `sigmoid`, `tanh`, `np.exp` and `np.log`, including sigmoid's clipping of its input to ±500, are function values known only by their ranges. So no statement depends on their exact values, for example that a given network learns XOR from a given seed.
- `np.random.seed` and `np.random.randn`: initial weights are constructor and `reset` parameters, and no statement about the random draws is made.
- Mlp.MultiLayerPerceptron.RandomWeightUpdate: the random perturbation is a caller-supplied function that keeps the parameter shapes. Its hill-climbing test and its "revert", which subtracts fresh noise rather than the noise it added, are not modelled. Neither are the arrays its two forward passes store, because the epoch's next forward pass overwrites them.
- Printing: no `print` is modelled. This covers the optional verbose progress lines of `fit` in `single_layer_perceptron.py` and `multi_layer_perceptron.py`, the "Converged at epoch" line that the Rosenblatt `fit` always prints when a sweep makes no mistake (perceptron.py:116), and the progress line `train` always prints every 100 epochs (mlp.py:213-216). The `score` that line computes is modelled only where it raises (see Mlp.MultiLayerPerceptron.Train below). Where it does not raise, its forward pass stores the same arrays that the epoch's own forward pass stored.
- Mlp.MultiLayerPerceptron.Score and Mlp.ScoreOf require a single output unit. With more outputs and two samples or more, `score` raises (Mlp.ScoreRaises). With one sample, numpy broadcasts the single label over every output, and the model does not follow that case.
- Mlp.MultiLayerPerceptron.Train and Mlp.MultiLayerPerceptron.RunEpochs follow NumPy 1.25 or later, where `predictions == y` on lengths that do not broadcast raises `ValueError`. Older NumPy returns `False` with a warning, the score is 0 and training goes on; the model does not represent that behaviour.
- Mlp.MultiLayerPerceptron.Train requires at least one sample and one output unit, even when `epochs <= 0`, where the source accepts empty data. With no samples and `epochs > 0`, `'backprop'` raises `ZeroDivisionError` at `1/m` (mlp.py:131) and `'random'` takes a mean of nothing (NaN). With no output unit the loss is a mean of nothing.
- Mlp.MultiLayerPerceptron.Backpropagation requires at least one sample. With none, `1/m` raises `ZeroDivisionError`, which the model does not represent.
- Mlp.MultiLayerPerceptron.Forward: the instance attributes `z1`, `a1`, `z2` and `a2` do not exist before the first `forward`. The model starts them as empty matrices.
- RosenblattPerceptron.Perceptron.TrainStep requires at least one sample. With none, `total_error / len(X)` raises `ZeroDivisionError`.
- RosenblattPerceptron.Perceptron.Fit requires at least one sample when `epochs > 0`. With none, the first epoch's `train_step` raises `ZeroDivisionError`, which the model does not represent.
- SingleLayer.SingleLayerPerceptron.TrainStep requires at least one sample. With none, the loss is a mean of nothing (NaN).
- SingleLayer.SingleLayerPerceptron.Fit requires at least one sample, even when `epochs <= 0`. The source handles empty data in two ways, and the model represents neither. On a fresh or reset perceptron the bias is a Python float (`np.random.randn() * 0.1`, single_layer_perceptron.py:38 and :165). An empty `train_step` never turns it into a numpy scalar, so the first epoch computes a NaN loss and accuracy and then raises `AttributeError` at `self.bias.copy()` (:137). After an earlier fit on data the bias is a numpy scalar, and every epoch records a NaN loss and a NaN accuracy.
- SingleLayer.SingleLayerPerceptron.GetDecisionBoundary returns the weights as a value. The source returns the live `self.weights` array, so a later `fit` updates the caller's copy in place (single_layer_perceptron.py:104). The model does not capture this aliasing.
- MultiLayer.Create requires a non-empty list of layer sizes. From an empty list the source builds a network with no input width, which the model does not represent.
- MultiLayer.MultiLayerPerceptron.Fit requires at least one sample and a single output unit, the shape under which `predict(X) == y` is an elementwise comparison.
- Evaluation.EvaluateModel and Evaluation.RunExperiment require a non-empty test set. With an empty one numpy's means are NaN.
- Evaluation.RunExperiment: the model is abstracted as a trainer. A trainer maps the seeded parameters to its test-set predictions and its accuracy-history length, because model construction and `fit` are calls into whatever class the caller passes.
- Evaluation.RunExperiment does not model `training_times`, `histories`, the timing with `time.time`, or the `std` and `median` statistics: these concern wall-clock time or need sorting that is not part of this model.
- `compare_architectures`, `statistical_hypothesis_test`, `generate_experiment_report` and the other helpers of `evaluation.py` are not part of this model, because they rely on SciPy, random data or file output.
- `generate_extended_xor_data` in `data_utils.py` draws random noise, and the plotting and demonstration functions only draw or print, so neither is modelled.
- Everything in `statistical_analysis.py` besides the two interpreters is left out: SciPy tests, synthetic data, plots, JSON and markdown output.
- `run_experiments.py`, the package `__init__.py` and the test suite are not part of this model.
- DataUtils.GenerateLogicGateData: the `ValueError` message for an unknown gate keeps its leading `Unknown gate: <name>`. It omits the list of valid gate names that Python appends.
