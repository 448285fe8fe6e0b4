# Thought tree reshaping (TreeVisualization)

This project models the data preparation step of the `TreeVisualization`
component of the mindlink application. A user records a *thought* and a
hierarchy of supporting *reasons* (nodes). Before the tree renderer draws
them, the component's `transformData` reshapes the already-nested reason
nodes into display records `{name, id, children}`:

- only the top-level entries whose `level` is exactly `0` are kept;
- each kept entry is rebuilt recursively by `buildTree`. Its `content` becomes
  `name`, its `id` is kept, and its `children` are rebuilt one by one in the
  order given;
- the rebuilt entries are placed under one synthetic root that stands for the
  thought (`name` is the thought's title, `id` its id);
- the result is a one-element list holding that root.

Everything lives in `TreeVisualization.dfy`, module `TreeVisualization`:

- the datatypes `Node`, `Thought` and `TreeDatum`;
- the functions `Roots` (the level filter), `BuildTree` and `BuildForest`
  (`buildTree` and `children.map(buildTree)`), and `TransformData`;
- size, depth and id-multiset measures on both kinds of tree;
- lemmas relating input and output.

The component trusts the nesting and the `level` fields it is given. It
selects roots by `level === 0`, takes children exactly as given, never
re-sorts them, and never reads `level` below the top. The model does the
same.

## Model

| member | source | states |
|---|---|---|
| TreeVisualization.Roots | app/components/TreeVisualization.tsx:47 | the kept entries are exactly the input entries with level 0 (membership both ways), there are no more of them than entries, and an input whose entries all have level 0 is kept whole |
| TreeVisualization.RootsAppend | app/components/TreeVisualization.tsx:47 | the filter distributes over concatenation, so the kept entries appear in their input order |
| TreeVisualization.RootsEmpty | app/components/TreeVisualization.tsx:47 | nothing is kept exactly when no entry has level 0 |
| TreeVisualization.RootsSkip | app/components/TreeVisualization.tsx:47 | inserting an entry whose level is not 0 anywhere in the input leaves the kept entries unchanged |
| TreeVisualization.BuildForest | app/components/TreeVisualization.tsx:52 | mapping keeps the length, and element i of the result is the rebuilt element i of the input |
| TreeVisualization.BuildTree | app/components/TreeVisualization.tsx:49-53 | the display node's name is the node's content and its id is the node's id; it has as many children as the node, and child i is the rebuilt child i, so sibling order is kept |
| TreeVisualization.BuildForestAppend | app/components/TreeVisualization.tsx:52 | rebuilding a concatenation gives the concatenation of the rebuilt parts |
| TreeVisualization.BuildTreeSize | app/components/TreeVisualization.tsx:49-53 | the rebuilt subtree has the same total node count as the input subtree |
| TreeVisualization.BuildForestSize | app/components/TreeVisualization.tsx:52 | a rebuilt sequence of subtrees has the same total node count as the input |
| TreeVisualization.BuildTreeDepth | app/components/TreeVisualization.tsx:49-53 | the rebuilt subtree has the same depth as the input subtree |
| TreeVisualization.BuildForestDepth | app/components/TreeVisualization.tsx:52 | a rebuilt sequence of subtrees has the same greatest depth as the input |
| TreeVisualization.BuildTreeIds | app/components/TreeVisualization.tsx:49-53 | the rebuilt subtree holds the same multiset of ids as the input subtree |
| TreeVisualization.BuildForestIds | app/components/TreeVisualization.tsx:52 | a rebuilt sequence of subtrees holds the same multiset of ids as the input |
| TreeVisualization.BuildTreeIgnoresLevel | app/components/TreeVisualization.tsx:49-53 | two subtrees rebuild to the same display tree if and only if they agree on every id, content and child structure, whatever their level fields say |
| TreeVisualization.BuildForestIgnoresLevel | app/components/TreeVisualization.tsx:52 | the same for sequences of subtrees |
| TreeVisualization.BuildTreeUnbuild | app/components/TreeVisualization.tsx:49-53 | every display tree is the image of a node tree carrying any one level value at every node; with BuildTreeIgnoresLevel, rebuilding loses exactly the level fields |
| TreeVisualization.BuildForestUnbuild | app/components/TreeVisualization.tsx:52 | the same for sequences of display trees |
| TreeVisualization.TransformData | app/components/TreeVisualization.tsx:46-62 | the result has exactly one element; its id is the thought's id and its name the thought's title; its children correspond one to one, in order, to the rebuilt level-0 entries |
| TreeVisualization.TransformDataNoRoots | app/components/TreeVisualization.tsx:47-58 | the root has no children if and only if no input entry has level 0, in particular for an empty input |
| TreeVisualization.TransformDataAppend | app/components/TreeVisualization.tsx:47-58 | appending entries to the input appends their rebuilt level-0 entries after the root's existing children |
| TreeVisualization.TransformDataSkips | app/components/TreeVisualization.tsx:47-58 | an entry whose level is not 0 contributes nothing to the result, wherever it sits in the input |
| TreeVisualization.TransformDataIds | app/components/TreeVisualization.tsx:47-59 | the output's ids are the thought's id plus the ids of the subtrees of the level-0 entries, with the same multiplicities |
| TreeVisualization.TransformDataHasId | app/components/TreeVisualization.tsx:47-59 | an id occurs in the output if and only if it is the thought's id or occurs, at any depth and whatever the level fields below, in the subtree of some level-0 entry |
| TreeVisualization.ForestIdsMember | app/components/TreeVisualization.tsx:52 | an id occurs in a sequence of subtrees if and only if it occurs in one of them |
| TreeVisualization.TransformDataSize | app/components/TreeVisualization.tsx:55-61 | the output has one node for the thought plus the total node count of the level-0 entries' subtrees |

## Left out

- Rendering: the custom node element, the edit, add and delete callbacks,
  the `foreignObject` sizing and the buttons
  (app/components/TreeVisualization.tsx:66-140). This is presentation only.
- The `Tree` component of `react-d3-tree` and its layout parameters
  (app/components/TreeVisualization.tsx:142-154). It is a foreign library
  whose layout algorithm is not visible.
- `level` is a JavaScript number in the source and an `int` here. `===`
  compares it with `0`, so a fractional, `NaN` or infinite level is simply
  "not 0", which any non-zero `int` already models. `-0 === 0` holds in
  JavaScript, and the single integer 0 stands for both. At run time a
  missing, `null` or string `level` (such as `"0"` from a database column
  delivered as text) is also "not 0" under `===`; the model has no such
  values, and any non-zero `int` stands for them. The row type in
  app/api/thoughts/[id]/nodes/route.ts:4-11 declares no `level` field at all.
- Cyclic object graphs: a JavaScript `children` array can refer back to an
  ancestor, on which `buildTree` would recurse without end. Dafny datatype
  values are finite, so the model only covers finite, acyclic trees.
- The result of `transformData` is typed `any[]` in the source; the model
  gives it the precise record type `TreeDatum`.
- app/page.tsx, app/layout.tsx, app/thoughts/[id]/page.tsx and the HTTP route
  handlers under app/api/ are page state, network I/O and SQL glue, and are
  not part of this model. That includes the server-side tree builder in
  app/api/thoughts/[id]/nodes/route.ts, which links rows by `parent_id` and
  sorts siblings by `order`.
- `getDescendants` in app/api/nodes/[id]/route.ts:4-19, the recursive
  descendant collection used when a node is deleted, is route-side SQL code
  and is not part of this model.
