/**
 * The "create project" command: the project-name validator given to the
 * input box, and the command's early-return flow from the user's answers
 * (a name, then a framework) to the information message it shows.
 */
module Extension {
  import opened Wrappers

  // ---------------------------------------------------------------------
  // Substring search (`String.prototype.includes`)
  // ---------------------------------------------------------------------

  /** `search` occurs in `s` starting at index `i`. */
  ghost predicate OccursAt(s: string, search: string, i: int)
  {
    0 <= i && i + |search| <= |s| && s[i..i + |search|] == search
  }

  /** `s.includes(search)`: scan the start positions of `s` from the left. */
  function Includes(s: string, search: string): bool
    decreases |s|
  {
    if |search| > |s| then false
    else if s[..|search|] == search then true
    else Includes(s[1..], search)
  }

  /** The scan answers true exactly when `search` occurs somewhere in `s`. */
  lemma {:induction false} IncludesCorrect(s: string, search: string)
    ensures Includes(s, search) <==> exists i :: OccursAt(s, search, i)
    decreases |s|
  {
    if |search| > |s| {
    } else if s[..|search|] == search {
      assert OccursAt(s, search, 0);
    } else {
      IncludesCorrect(s[1..], search);
      forall i | OccursAt(s, search, i)
        ensures OccursAt(s[1..], search, i - 1)
      {
        assert i != 0;
        assert s[1..][i - 1..i - 1 + |search|] == s[i..i + |search|];
      }
      forall i | OccursAt(s[1..], search, i)
        ensures OccursAt(s, search, i + 1)
      {
        assert s[1..][i..i + |search|] == s[i + 1..i + 1 + |search|];
      }
    }
  }

  /** Searching for a one-character string is membership of that character. */
  lemma IncludesChar(s: string, c: char)
    ensures Includes(s, [c]) <==> c in s
  {
    IncludesCorrect(s, [c]);
    if c in s {
      var i :| 0 <= i < |s| && s[i] == c;
      assert OccursAt(s, [c], i);
    }
    if Includes(s, [c]) {
      var i :| OccursAt(s, [c], i);
      assert s[i] == s[i..i + 1][0];
    }
  }

  // ---------------------------------------------------------------------
  // The project-name validator
  // ---------------------------------------------------------------------

  /** Shown when the name is empty ("please enter a name"). */
  const EmptyNameMessage := "이름을 입력해주세요"

  /** Shown when the name contains a space ("spaces are not allowed"). */
  const SpaceMessage := "공백은 사용할 수 없습니다"

  /**
   * `validateInput`: an error message for an empty name or a name that
   * contains the space character, `null` (None) otherwise. Only U+0020 is
   * looked for; tabs and other whitespace pass.
   */
  function ValidateInput(text: string): (r: Option<string>)
    ensures r == None <==> text != "" && ' ' !in text
    ensures text == "" ==> r == Some(EmptyNameMessage)
    ensures text != "" && ' ' in text ==> r == Some(SpaceMessage)
  {
    IncludesChar(text, ' ');
    if text == "" then Some(EmptyNameMessage)
    else if Includes(text, " ") then Some(SpaceMessage)
    else None
  }

  /** A tab is not a space: "my\tproject" is accepted, "my project" is not. */
  lemma OnlySpaceIsRejected()
    ensures ValidateInput("my\tproject") == None
    ensures ValidateInput("my project") == Some(SpaceMessage)
    ensures ValidateInput("") == Some(EmptyNameMessage)
  {
  }

  // ---------------------------------------------------------------------
  // The create-project command
  // ---------------------------------------------------------------------

  /** The frameworks offered in the quick pick. */
  datatype Framework = PyTorch | TensorFlow | ScikitLearn | LightGBM

  /** The text the quick pick shows for, and returns as, each framework. */
  function FrameworkLabel(f: Framework): (s: string)
    ensures s != "" && ' ' !in s
  {
    match f
    case PyTorch => "PyTorch"
    case TensorFlow => "TensorFlow"
    case ScikitLearn => "scikit-learn"
    case LightGBM => "LightGBM"
  }

  /** The quick pick's items, in the order they are offered. */
  const FrameworkChoices: seq<Framework> := [PyTorch, TensorFlow, ScikitLearn, LightGBM]

  /** The labels the quick pick is given. */
  function ChoiceLabels(): (labels: seq<string>)
    ensures |labels| == |FrameworkChoices|
    ensures forall i :: 0 <= i < |labels| ==> labels[i] == FrameworkLabel(FrameworkChoices[i])
  {
    seq(|FrameworkChoices|, i requires 0 <= i < |FrameworkChoices| => FrameworkLabel(FrameworkChoices[i]))
  }

  /**
   * The offered choices are exactly the four frameworks, in the order
   * PyTorch, TensorFlow, scikit-learn, LightGBM, each once, and each
   * label names one framework.
   */
  lemma ChoicesAreTheFrameworks()
    ensures ChoiceLabels() == ["PyTorch", "TensorFlow", "scikit-learn", "LightGBM"]
    ensures forall f: Framework :: f in FrameworkChoices
    ensures forall i, j :: 0 <= i < j < |FrameworkChoices| ==> FrameworkChoices[i] != FrameworkChoices[j]
    ensures forall f, g: Framework :: FrameworkLabel(f) == FrameworkLabel(g) ==> f == g
  {
    forall f: Framework
      ensures f in FrameworkChoices
    {
      match f
      case PyTorch => assert FrameworkChoices[0] == f;
      case TensorFlow => assert FrameworkChoices[1] == f;
      case ScikitLearn => assert FrameworkChoices[2] == f;
      case LightGBM => assert FrameworkChoices[3] == f;
    }
  }

  /**
   * The announcement shown once both answers are given ("project '<name>'
   * will be created with the <framework> framework!"): the name is quoted
   * after a fixed six-character opening, and the framework label follows
   * three characters after the name.
   */
  function Announcement(name: string, f: Framework): (m: string)
    ensures OccursAt(m, name, 6)
    ensures OccursAt(m, FrameworkLabel(f), 6 + |name| + 3)
  {
    var m := "프로젝트 '" + name + "'이 " + FrameworkLabel(f) + " 프레임워크로 생성됩니다!";
    assert m[6..6 + |name|] == name;
    assert m[6 + |name| + 3..6 + |name| + 3 + |FrameworkLabel(f)|] == FrameworkLabel(f);
    m
  }

  /** One call the command makes into the host UI, in the order made. */
  datatype UiCall =
    | InputBox
    | QuickPick(labels: seq<string>)
    | InformationMessage(text: string)

  /**
   * The `aiWorkspace.createProject` handler, given the input box's answer
   * (None when dismissed) and the quick pick's answer (None when
   * dismissed): the UI calls it makes, in order. An empty or missing name
   * ends the command before the framework is asked for; a missing
   * framework ends it with no message.
   */
  function CreateProject(name: Option<string>, framework: Option<Framework>): (calls: seq<UiCall>)
    ensures 1 <= |calls| <= 3 && calls[0] == InputBox
    ensures |calls| >= 2 <==> name.Some? && name.value != ""
    ensures |calls| >= 2 ==> calls[1] == QuickPick(ChoiceLabels())
    ensures |calls| == 3 <==> name.Some? && name.value != "" && framework.Some?
    ensures |calls| == 3 ==> calls[2] == InformationMessage(Announcement(name.value, framework.value))
  {
    if name.None? || name.value == "" then [InputBox]
    else if framework.None? then [InputBox, QuickPick(ChoiceLabels())]
    else [InputBox, QuickPick(ChoiceLabels()), InformationMessage(Announcement(name.value, framework.value))]
  }

  /** The messages shown by a sequence of UI calls. */
  function Messages(calls: seq<UiCall>): seq<string>
  {
    if calls == [] then []
    else if calls[0].InformationMessage? then [calls[0].text] + Messages(calls[1..])
    else Messages(calls[1..])
  }

  /** The messages of two runs of calls, one after the other, are those of each run in turn. */
  lemma {:induction false} MessagesAppend(a: seq<UiCall>, b: seq<UiCall>)
    ensures Messages(a + b) == Messages(a) + Messages(b)
  {
    if a == [] {
      assert a + b == b;
    } else {
      assert (a + b)[1..] == a[1..] + b;
      MessagesAppend(a[1..], b);
    }
  }

  /**
   * The command shows at most one message: none when an answer is missing,
   * and otherwise exactly one, which mentions both the name and the
   * framework.
   */
  lemma {:induction false} OneMessageMentioningBoth(name: Option<string>, framework: Option<Framework>)
    ensures var msgs := Messages(CreateProject(name, framework));
      && (name.None? || name == Some("") || framework.None? ==> msgs == [])
      && (name.Some? && name.value != "" && framework.Some? ==>
            && |msgs| == 1
            && Includes(msgs[0], name.value)
            && Includes(msgs[0], FrameworkLabel(framework.value)))
  {
    var calls := CreateProject(name, framework);
    var ask := [InputBox, QuickPick(ChoiceLabels())];
    assert Messages([InputBox]) == [] && Messages(ask) == [];
    if |calls| == 3 {
      var n, f := name.value, framework.value;
      var m := Announcement(n, f);
      assert calls == ask + [InformationMessage(m)];
      MessagesAppend(ask, [InformationMessage(m)]);
      IncludesCorrect(m, n);
      IncludesCorrect(m, FrameworkLabel(f));
    }
  }


  /** Two space-free words followed by a space and a tail split the same way only if both parts agree. */
  lemma SplitAtFirstSpace(a1: string, b1: string, a2: string, b2: string)
    requires ' ' !in a1 && ' ' !in a2
    requires a1 + " " + b1 == a2 + " " + b2
    ensures a1 == a2 && b1 == b2
  {
    var s := a1 + " " + b1;
    assert s[|a1|] == ' ';
    assert (a2 + " " + b2)[|a2|] == ' ';
    if |a1| < |a2| {
      assert false;
    } else if |a2| < |a1| {
      assert false;
    }
    assert a1 == s[..|a1|] == a2;
    assert b1 == s[|a1| + 1..] == b2;
  }

  /** The announcement split at the space after the project name. */
  lemma AnnouncementShape(n: string, f: Framework)
    ensures Announcement(n, f) == "프로젝트 '" + ((n + "'이") + " " + (FrameworkLabel(f) + " " + "프레임워크로 생성됩니다!"))
  {
    var fw := FrameworkLabel(f);
    assert Announcement(n, f) == "프로젝트 '" + n + "'이 " + fw + " 프레임워크로 생성됩니다!";
    assert "'이 " == "'이" + " ";
    assert " 프레임워크로 생성됩니다!" == " " + "프레임워크로 생성됩니다!";
  }

  /**
   * For names the validator accepts, the announcement identifies the
   * project: different answers never produce the same message.
   */
  lemma AnnouncementDeterminesAnswers(n1: string, f1: Framework, n2: string, f2: Framework)
    requires ValidateInput(n1) == None && ValidateInput(n2) == None
    requires Announcement(n1, f1) == Announcement(n2, f2)
    ensures n1 == n2 && f1 == f2
  {
    var p := "프로젝트 '";
    var tail := "프레임워크로 생성됩니다!";
    var w1, w2 := n1 + "'이", n2 + "'이";
    var rest1 := w1 + " " + (FrameworkLabel(f1) + " " + tail);
    var rest2 := w2 + " " + (FrameworkLabel(f2) + " " + tail);
    AnnouncementShape(n1, f1);
    AnnouncementShape(n2, f2);
    assert rest1 == (p + rest1)[|p|..] == (p + rest2)[|p|..] == rest2;
    SplitAtFirstSpace(w1, FrameworkLabel(f1) + " " + tail, w2, FrameworkLabel(f2) + " " + tail);
    assert n1 == w1[..|n1|] && n2 == w2[..|n2|];
    SplitAtFirstSpace(FrameworkLabel(f1), tail, FrameworkLabel(f2), tail);
    ChoicesAreTheFrameworks();
  }
}
