# AI Competition Workspace — tree projection and create-project flow

This project models the logic of the AI Competition Workspace VS Code extension. The extension has two pieces of logic.

- **The competition explorer** (`CompetitionProvider`, `competition_provider.dfy`). The provider holds a fixed table from competition name to an ordered list of `{ name, score }` experiment records. `getChildren` turns that table into a two-level tree:
  - with no element, one collapsed competition item per key, in key order;
  - with a competition item, one leaf experiment item per record stored under its label, or nothing when the label is not a key (an own key; an inherited name such as "toString" throws as written, see ## Findings);
  - with an experiment item, nothing.

  The `CompetitionItem` constructor sets the icon and context value from the item's type, the tooltip from its label, and a score description for an experiment that has a score. It is modelled as the function `NewItem`, which returns a datatype value. Scores are integers in ten-thousandths, so 0.8012 is 8012.
- **The create-project command** (`Extension`, `extension.dfy`).
  - The input box's validator rejects an empty name and any name containing the space character.
  - The handler asks for a name, then for a framework (PyTorch, TensorFlow, scikit-learn or LightGBM), and then announces the project.
  - Either answer can be dismissed, and the command then stops early.
  - The handler is modelled as a function from the two answers to the sequence of UI calls it makes.

`wrappers.dfy` holds the `Option` datatype, which both modules use, and the `Result` datatype, which only the as-written `getChildren` (`GetChildrenAsWritten`) uses.

The table is the `Data` type: a sequence of (name, experiments) pairs with no name twice, as the keys of an object are.

The validator checks only for the space character U+0020. Names containing a tab or other whitespace but no U+0020 are accepted (`OnlySpaceIsRejected`).

## Model

| member | source | states |
|---|---|---|
| `CompetitionProvider.NewItem` | ai-competition-workspace/src/competitionProvider.ts:4-28 | The item keeps its label, type, collapsible state and score. Its context value spells its type and its tooltip is its label. Its icon is "folder" for a competition and "symbol-method" for an experiment. It has a description exactly when it is an experiment with a score. |
| `CompetitionProvider.GetTreeItem` | ai-competition-workspace/src/competitionProvider.ts:59-61 | The host receives the very item it passed in. |
| `CompetitionProvider.Lookup` | ai-competition-workspace/src/competitionProvider.ts:77 | Own-key lookup finds a list exactly when the label is one of the table's keys. A list it finds is the one stored under that key. |
| `CompetitionProvider.LookupAt` | ai-competition-workspace/src/competitionProvider.ts:77 | Because keys are distinct, looking up the i-th competition name yields the i-th experiment list. |
| `CompetitionProvider.Roots` | ai-competition-workspace/src/competitionProvider.ts:67-73 | There is one root item per key, in key order. Each is a competition item labelled with the key, collapsed, with no score. |
| `CompetitionProvider.ExperimentItems` | ai-competition-workspace/src/competitionProvider.ts:78-85 | There is one item per experiment record, in record order. Each is an experiment item with the record's name and score, and it cannot be expanded. |
| `CompetitionProvider.GetChildren` | ai-competition-workspace/src/competitionProvider.ts:64-90 | With no element, the result has one collapsed, scoreless competition item per key, in key order. An experiment element, or a label that is not a key, gives the empty list. Every child of an element is an experiment leaf with a score. |
| `CompetitionProvider.ChildrenOfCompetition` | ai-competition-workspace/src/competitionProvider.ts:75-86 | Expanding a competition whose label is a key gives one item per experiment of that key, with the same length and order. Each child's label is the record's name and its score is the record's score. |
| `CompetitionProvider.ProvidedItemsWellFormed` | ai-competition-workspace/src/competitionProvider.ts:4-28 | Every item `getChildren` returns, for any element, keeps the constructor's invariant. Competitions are collapsed and scoreless. Experiments are scored leaves. |
| `CompetitionProvider.TwoLevels` | ai-competition-workspace/src/competitionProvider.ts:64-90 | The i-th root's children are exactly the items of the i-th table entry. None of those children has children of its own, so the tree has two levels. |
| `CompetitionProvider.SampleTree` | ai-competition-workspace/src/competitionProvider.ts:38-51 | The sample table's roots are "Titanic", "House Prices" and "Digit Recognizer", in that order. "Titanic" has its three experiments, with their names and scores. |
| `CompetitionProvider.GetChildrenAsWritten` | ai-competition-workspace/src/competitionProvider.ts:77-78 | As written, `getChildren` throws exactly when the element is a competition whose label is not an own key but is a name every object inherits, such as "toString". |
| `CompetitionProvider.AsWrittenAgreesElsewhere` | ai-competition-workspace/src/competitionProvider.ts:77 | For every element on which the code as written does not throw, it returns the same children as `GetChildren`. |
| `CompetitionProvider.AsWrittenAgreesOnProvidedItems` | ai-competition-workspace/src/competitionProvider.ts:64-90 | For any item the provider itself returned, the code as written returns the same children as `GetChildren`. The view therefore never reaches the throw. |
| `CompetitionProvider.AsWrittenThrowsOnInheritedName` | ai-competition-workspace/src/competitionProvider.ts:77-78 | On the sample data, a competition item labelled "toString" throws as written, but has no children after the correction. |
| `Extension.IncludesCorrect` | ai-competition-workspace/src/extension.ts:30 | The left-to-right scan that models `includes` answers true exactly when the search string occurs at some index. |
| `Extension.IncludesChar` | ai-competition-workspace/src/extension.ts:30 | Searching for a one-character string is the same as asking whether that character is in the text. |
| `Extension.ValidateInput` | ai-competition-workspace/src/extension.ts:26-34 | An empty name gives the empty-name message. A non-empty name containing `' '` gives the no-spaces message. The validator accepts a name (returns None) exactly when it is non-empty and has no space. |
| `Extension.OnlySpaceIsRejected` | ai-competition-workspace/src/extension.ts:27-33 | "my\tproject" is accepted, because only U+0020 is checked. "my project" is rejected, and so is the empty name. |
| `Extension.FrameworkLabel` | ai-competition-workspace/src/extension.ts:42 | Every framework label is non-empty and contains no space. |
| `Extension.ChoiceLabels` | ai-competition-workspace/src/extension.ts:41-44 | The quick pick offers one label per framework choice, in the choices' order. |
| `Extension.ChoicesAreTheFrameworks` | ai-competition-workspace/src/extension.ts:42 | The offered labels are exactly PyTorch, TensorFlow, scikit-learn and LightGBM, in that order. Every framework is offered once, and each label names only one framework. |
| `Extension.Announcement` | ai-competition-workspace/src/extension.ts:50-52 | The announcement quotes the project name right after its fixed opening, and the framework label follows three characters after the name. |
| `Extension.CreateProject` | ai-competition-workspace/src/extension.ts:22-53 | The input box always comes first. The framework pick, offering the four labels, is shown exactly when a non-empty name was entered. An information message is shown exactly when both answers were given, and it is the announcement for that name and framework. |
| `Extension.OneMessageMentioningBoth` | ai-competition-workspace/src/extension.ts:37-52 | If the name is missing or empty, or no framework is picked, no message is shown. Otherwise exactly one message is shown, and it contains both the name and the framework label. |
| `Extension.AnnouncementDeterminesAnswers` | ai-competition-workspace/src/extension.ts:50-52 | For two names the validator accepts, equal announcements mean equal names and equal frameworks. |

## Findings

| source | as written | input that shows it | evidently intended | confidence | as-written member | corrected member |
|---|---|---|---|---|---|---|
| ai-competition-workspace/src/competitionProvider.ts:77-78 | `this.data[label] \|\| []` also reads properties inherited from Object.prototype. For such a label it yields a truthy non-array, so the following `.map` throws a TypeError. | A competition item labelled "toString" (also "constructor", "valueOf", "\_\_proto\_\_", …) | A label that is not a competition name has no children | not executed; the view cannot trigger it, because it only passes back items the provider built (`AsWrittenAgreesOnProvidedItems`) | `CompetitionProvider.AsWrittenThrowsOnInheritedName` | `CompetitionProvider.GetChildren` |

## Left out

- The score description's text (`score.toFixed(4)`) is left out. It is a floating-point number-to-string conversion, so the model records only whether a description is present.
- Scores are integers in ten-thousandths, not floating-point numbers. All sample scores are exact at that precision.
- The table is taken to be in the order `Object.keys` enumerates it. Keys that look like array indices (such as "2") would be listed first, in numeric order. The sample table has no such keys.
- `refresh()` and the tree-data change event are left out. They fire a host `EventEmitter`, and this code has no listener logic.
- The `Promise`/`Thenable` wrapping of `getChildren`'s result is left out. The result is a direct value.
- The VS Code API calls are left out or abstracted:
  - `ThemeIcon` is kept only as its icon id.
  - `createTreeView`, `registerCommand` and `context.subscriptions.push` are left out.
  - `showInputBox` and `showQuickPick` are represented by the answers they return, which are parameters.
  - `showInformationMessage` is represented by the `InformationMessage` call it records.
- The input box's prompt and placeholder and the quick pick's placeholder are left out; `QuickPick` records only the labels offered.
- Strings are sequences of Unicode scalar values, while JavaScript strings are sequences of UTF-16 code units and may hold lone surrogates. The emptiness test, the search for `' '` and the containment facts do not depend on this. The positions in `Announcement`'s contract (6, and 6 + |name| + 3) count scalar values, not UTF-16 code units.
- The host refuses to accept a name that the validator rejects. This is not modelled: `CreateProject` takes any answer.
- The hello-world command, the refresh command, `console.log`, `activate`'s registration code and `deactivate` are left out. They hold no logic beyond host calls.
- competitionProvider.ts and extension.ts contain no progress-task or details-picker code, so neither is part of this model.
