# micrograd-go in Dafny

A model of the core of micrograd-go, a small reverse-mode automatic
differentiation engine over scalar values, with a tanh multilayer perceptron
built on top of it. The model covers:

- the value graph: `Add`, `Mul`, `Tanh`, the per-node local gradient rule
  `backward`, and `Backward`, which does a depth-first post-order
  topological sort, sets the root's gradient to 1 and applies the local rules
  in reverse order;
- `Neuron`, `Layer` and `MLP`: construction with random initial weights,
  the forward calls, and the parameter lists;
- the in-memory half of `Save` and `LoadMLP`, which copy values between a
  network and its `(weights, bias)` table;
- one training step of `Run`: a forward pass per sample, the squared-error
  loss, `Backward` on the loss, and the gradient-descent update that zeroes
  every parameter's gradient.

The repository holds this engine three times. The model follows `nn/value.go`
and `nn/engine.go`, and the rows below cite those files. The other two
copies are the same code:

- `main.go` lines 12–234: `Add`/`Mul`/`Tanh`/`backward`/`Backward` at
  main.go:184-234 and Neuron/Layer/MLP at main.go:42-143;
- `engine.go` lines 8–131: Neuron/Layer/MLP at engine.go:30-131;
- `main.go` also copies `Save`/`LoadMLP` at main.go:236-317.

All three match the `nn` package text line for line. `Run` exists only in
`main.go`.

## How the model is laid out

- **Arena.** The graph of `*Value` references becomes an arena
  `Graph = seq<Node>`:
  - a node's identity is its index;
  - its operands are indices, always smaller than its own (`WellFormed`);
  - so the graph is acyclic by construction;
  - the `visited` map keyed by node identity becomes a set of indices.
- **Constructors.**
  - `Leaf`, `Add`, `Mul` and `Tanh` return the arena with one node appended;
    the new node's index is the old arena's length.
  - The network-level constructors and calls (`NewNeuron`, `NeuronCall`,
    `Load`, …) return the new arena together with what they built
    (`Alloc`).
- **Numbers.** `Data` and `Grad` are `real`.
- **Parameters.**
  - `math.Tanh` is a parameter `th: real -> real`.
  - The tanh rule uses the node's own output, as the source does: `1 - y*y`.
  - `rand.Float64()` draws are a parameter `u: seq<real>` of values in
    [0, 1).
- **Reference gradient.** The gradients `Backward` must produce are given by
  an independent definition, `Backprop.Adjoint`. It is the chain rule with
  accumulation over shared operands, and it adds to each node's prior
  gradient. It is stated without reference to any visiting order.
- **Reference forward pass.** `Table` is the network as numbers only: one
  `(weights, bias)` record per neuron, laid out as the save routine writes
  it, with the forward pass computed on those records directly.
  - The graph-building calls are proved to compute the same values.
  - `Table.Flatten` lists a table's values in the save routine's order, which
    is also `Parameters()` order.
- **Inputs longer than the weights.** `Neuron.Call` reads only as many inputs
  as it has weights and ignores the rest; a shorter input makes it panic. The
  model follows the code here: it requires enough inputs and ignores the
  extra ones. A design that reported every length mismatch as an error would
  differ on the longer inputs.

Modules, in dependency order:

- `Value` (value.dfy): the arena, the node constructors, and the local rule.
- `Topo` (topo.dfy): reachability and the topological build.
- `Backprop` (backward.dfy): the reference gradient and `Backward`.
- `Table` (table.dfy): the network as numbers.
- `Engine` (engine.dfy): Neuron/Layer/MLP construction and parameters.
- `Forward` (forward.dfy): the forward calls.
- `Persist` (persist.dfy): save and restore.
- `Train` (train.dfy): `Run`.
- `Scenarios` (scenarios.dfy): the expression graphs of the repository's
  tests, with their gradients.

## Model

| member | source | states |
|---|---|---|
| `Value.Leaf` | nn/value.go:8-14 | a `&Value{Data: x}` literal is a fresh node holding x, with gradient 0 and no operands, appended without changing any older node |
| `Value.Add` | nn/value.go:55-57 | a fresh node holding a + b, with gradient 0 and operands [a, b]; older nodes are unchanged, and every node unused before, other than a and b, stays unused |
| `Value.Mul` | nn/value.go:59-61 | a fresh node holding a * b, with gradient 0 and operands [a, b]; older nodes are unchanged |
| `Value.Tanh` | nn/value.go:63-65 | a fresh node holding tanh(a), with gradient 0 and operand [a]; older nodes are unchanged |
| `Value.Propagate` | nn/value.go:67-78 | backward on one node: each node's gradient grows by what that node's local rule pushes into it; data, operands and arena size stay the same |
| `Topo.Visit` | nn/value.go:85-95 | buildTopo(v) appends exactly the nodes v reaches that were not yet listed; the list stays free of duplicates, with operands before users; visited grows by what v reaches; v ends the list when it was new |
| `Topo.VisitOperands` | nn/value.go:91-93 | the loop over v's operands lists exactly what those operands reach, keeps the order topological, and leaves v itself unlisted |
| `Topo.BuildTopo` | nn/value.go:82-96 | the list holds every node reachable from the root exactly once and nothing else; operands come before users; the root is last |
| `Backprop.Backward` | nn/value.go:80-105 | every node at or below the root ends at its reference gradient; the root ends at 1; data and operands never change; nodes the root does not reach are untouched |
| `Backprop.SweepStep` | nn/value.go:102-104 | one step of the reverse sweep keeps the invariant: each gradient is its start value plus what the entries swept so far have pushed at their final gradients |
| `Backprop.SoleUser` | nn/value.go:67-78 | the chain rule through a node's only user: the node receives its prior gradient plus what that user pushes at its final gradient |
| `Backprop.SoleSumUser` | nn/value.go:69-71 | the sum rule in the reference gradient: a node whose only user is a "+" of two distinct operands receives that sum's whole gradient |
| `Backprop.SoleMulUser` | nn/value.go:72-74 | the product rule in the reference gradient: a node whose only user is a "*" with a different other operand receives that product's gradient times the other operand's data, on either side |
| `Backprop.SoleTanhUser` | nn/value.go:75-76 | the tanh rule in the reference gradient: a node whose only user is tanh of it receives that node's gradient times (1 - y*y), y being the tanh node's own output |
| `Backprop.SumChain` | nn/value.go:69-71 | along a chain of sums, each node the sole user of the one before and ending at the root, every node is reachable and receives exactly 1 |
| `Engine.NewNeuron` | nn/engine.go:32-51 | n weight leaves, then one bias leaf, each fresh with gradient 0 and data u*2 - 1, in [-1, 1); Parameters() lists exactly these fresh nodes in creation order |
| `Engine.LayerCountProduct` | nn/engine.go:70-76 | NewLayer(nin, nout) creates nout * (nin + 1) parameters |
| `Engine.NewLayer` | nn/engine.go:70-76 | nout neurons of nin weights each; its parameters are exactly the fresh leaves, in creation order |
| `Engine.NewMLP` | nn/engine.go:100-112 | one layer per size; layer i has sizes[i] neurons with n inputs for the first layer and sizes[i-1] after; Parameters() is exactly the fresh leaves, of count sum (in_i + 1) * sizes[i] |
| `Engine.LayerParamsMatchTable` | nn/engine.go:92-98 | the layer's parameter values, in Parameters() order, are the layer's records flattened as weights then bias, neuron by neuron |
| `Engine.ParamsMatchTable` | nn/engine.go:127-133 | MLP.Parameters lists the parameter values layer by layer in the order the save loop writes them |
| `Engine.MlpTable` | nn/engine.go:151-171 | the table the save loop extracts has one record per neuron with as many weights as that neuron has |
| `Forward.Accumulate` | nn/engine.go:58-61 | after k terms the running sum holds b + sum of w[i] * x[i] over i < k, in index order; term i appends, with gradient 0, the node Mul(w[i], x[i]) holding w[i] * x[i] and then the node Add(running sum, that product) holding their sum, the running sum being b for i = 0 and the previous Add after (`Wired`, `TermAt`); no node older than the call is newly used except parameters and inputs |
| `Forward.NeuronCall` | nn/engine.go:57-64 | Neuron.Call appends 2 * len(W) + 1 nodes, every one with gradient 0: the Mul and Add terms as `Accumulate` states them, each holding its product or partial sum, then the output, an unused node holding tanh(b + sum of w[i] * x[i]) whose operation is Tanh of the last sum, or of b itself when there are no weights (`NeuronAt`); inputs beyond len(W) are ignored |
| `Forward.LayerCall` | nn/engine.go:84-90 | one fresh, unused output per neuron, in neuron order, holding the layer's forward pass on the numbers of x; every node the call appends has gradient 0; no node older than the call is newly used except parameters and inputs |
| `Forward.LayerCallWired` | nn/engine.go:84-90 | output j of Layer.Call is the node Neuron.Call builds for neuron j over the same input nodes x: its Mul(w[i], x[i]) and Add terms with their data and gradient 0, then Tanh of the last sum (`LayerAt`, `NeuronAt`) |
| `Forward.MlpCall` | nn/engine.go:120-125 | the layers are applied in order, each fed the previous layer's output nodes: there are output nodes of the first layer wired over x, and the rest of the network is wired over those (`MlpWired`); every node the call appends has gradient 0; the outputs hold MlpOut of the numbers; the output length is the last layer's size; with no layers x comes back unchanged |
| `Table.FlattenInjective` | nn/engine.go:151-171 | two tables of the same shape whose values in save order agree are equal, so the saved values determine the table |
| `Persist.Save` | nn/engine.go:135-171 | the state records each layer's size and the network's shape, and its table lists the parameter values in Parameters() order |
| `Persist.WriteAllReads` | nn/engine.go:206-213 | writing distinct parameters in turn leaves each holding the value written to it |
| `Persist.LoadLayers` | nn/engine.go:206-213 | LoadMLP's nested loops make the same writes as one pass over Parameters() with the table's values read in the network's own shape |
| `Persist.Load` | nn/engine.go:188-216 | the restored network has the recorded shape; its table is the recorded table cut to that shape; its parameters are exactly the new nodes, in order, each a leaf with gradient 0, as NewMLP makes them; every node older than the call is unchanged |
| `Persist.SaveLoadRoundTrip` | nn/engine.go:135-216 | restoring the saved state of a network built by NewMLP gives a network that saves to the same state and whose parameters hold the original values, in Parameters() order |
| `Train.Leaves` | main.go:323-326 | each input number becomes a fresh, unused leaf with gradient 0, in order |
| `Train.Predict` | main.go:322-330 | for one sample, the kept output is a fresh unused node with gradient 0 holding the first output of the network's forward pass on the numbers |
| `Train.ForwardAll` | main.go:320-331 | the first loop keeps one output per sample, in increasing arena order, each holding that sample's prediction |
| `Train.LossFold` | main.go:332-339 | the loss, folded from a zero leaf, holds the sum over samples of (out - t)^2, and the appended nodes have the four-per-sample layout |
| `Train.AddTermBuilds` | main.go:336-338 | one pass of the loss loop appends exactly what Leaf(-t), Add(out, that leaf), Mul(diff, diff) and Add(loss, result) build |
| `Train.LossAdjoint` | main.go:332-341 | after loss.Backward() every running-loss node is reachable from the loss and receives exactly 1 |
| `Train.TermGradient` | main.go:336-338 | through diff * diff, a running-loss node holding gradient 1 gives the output twice diff |
| `Train.DiffGradient` | main.go:336-337 | the square rule in the reference gradient: a node with gradient 0 whose only user is diff * diff, that product receiving 1, gets 2 * its own value |
| `Train.OutputGradient` | main.go:332-341 | after loss.Backward() each kept output's reference gradient is 2 * (out - t) |
| `Train.Update` | main.go:344-348 | every parameter's data moves by -0.01 * grad and its gradient becomes 0; a parameter listed twice is stepped once in effect; every other node is unchanged |
| `Train.Run` | main.go:319-349 | outputs hold the network's predictions; the loss holds the sum of squared errors; each output ends with gradient 2 * (out - t); each parameter moves by 0.01 times its reference gradient in the built graph and ends with gradient 0; every other node keeps the data, operation and reference gradient it has after loss.Backward() |
| `Scenarios.ChainBuilt` | micrograd_test.go:52-59 | the literal arena of the first gradient test is what the constructor calls build |
| `Scenarios.ChainGrad` | micrograd_test.go:46-72 | L = (a*b + c)*f with a = 2, b = -3, c = 10, f = -2 holds -8, and Backward gives a the gradient 6 |
| `Scenarios.TanhGrad` | micrograd_test.go:74-93 | b = tanh(a) with a = 1: Backward gives a the gradient 1 - tanh(1)^2 |
| `Scenarios.NeuronGrad` | micrograd_test.go:95-172 | for tanh(x1*w1 + x2*w2 + b) with s = 1 - o^2, Backward gives x1 the gradient w1 * s, w1 the gradient x1 * s, x2 the gradient w2 * s = s, w2 the gradient x2 * s, and b the gradient s |
| `Scenarios.SameOperandGrad` | micrograd_test.go:174-186 | b = a + a: a receives both contributions, gradient 2 |

## Left out

- JSON marshalling and unmarshalling, file reads and writes, and their error
  returns in `Save` and `LoadMLP`: these are I/O and library calls. Only the
  value-copying loops are modelled.
- `Print`, `PrintGraph`, `String`, the `Label` field, and every `fmt` and
  `log` line, including those inside `Run`: these are output only.
- `main()`: the `model.json` check, the hard-coded datasets and the training
  loop are driver code.
- `math/rand`: the draws are the parameter `u`, each in [0, 1).
- `float64` rounding, NaN and infinities, and the exact behaviour of
  `math.Tanh` and `math.Pow`:
  - values are reals;
  - tanh is an arbitrary function `th`;
  - `math.Pow(y, 2)` is `y * y`.

  The tests' tolerance-based numbers (0.419974, -0.7723, …) are stated
  symbolically instead.
- Op tags other than "+", "*", "tanh" and "": these are a no-op in
  `backward`, but the closed `Op` datatype cannot hold them. The leaf case
  is the no-op.
- Run's `targetValue` leaf (main.go:335): it is built but never added to the
  graph. The loss term's `-t` leaf (main.go:336) holds its negation, which is
  all the loss reads.
- Negative layer sizes and input counts: sizes are `nat`. `make` with a
  negative length panics in the source.
- Panics by index out of range become preconditions:
  - `Forward.NeuronCall`: requires at least len(W) inputs.
  - `Persist.Load`: requires a table covering the recorded shape.
  - `Train.Run`:
    - requires len(targets) >= len(inputs);
    - requires a non-empty output per sample;
    - requires a first weight in the first neuron, which its log line
      reads.
- `Train.AddTerm`: the four nodes of a loss term are written out directly,
  and `Train.AddTermBuilds` proves they equal the four constructor calls.
- `Engine.NeuronParams`, `Engine.LayerParams`, `Engine.MlpParams`: these are
  plain definitions. Their order is stated by `Engine.NewNeuron` and
  `Engine.NewMLP`, and by `Engine.ParamsMatchTable` against the save order.
