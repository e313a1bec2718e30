/** Notification labels and task-table keys: the printers in notification_tools.cpp and
    bg_continuous_task_mgr.cpp, and the parser in task_notification_subscriber.cpp. */
module Labels {
  import opened Decimal

  const SEPARATOR: char := '_'
  const TASK_PREFIX: string := "bgmode"
  const BANNER_PREFIX: string := "bgbanner"

  /** Stands for std::hash of the ability name. Only the fact that it prints as digits is used. */
  function NameHash(name: string): nat {
    if name == "" then 0 else (31 * NameHash(name[1..]) + name[0] as int) % 0x1_0000_0000_0000_0000
  }

  // ---------------------------------------------------------------- printers

  /** Tokens streamed one after the other with a separator between them. */
  function Line(init: seq<string>, last: string): string {
    if init == [] then last else init[0] + [SEPARATOR] + Line(init[1..], last)
  }

  /** Key of a task in the table: three tokens for a legacy task, four for a request-object task. */
  function TaskKey(uid: int, abilityName: string, abilityId: int, byRequest: bool, taskId: int): string {
    if byRequest then Line([ToString(uid), abilityName, ToString(abilityId)], ToString(taskId))
    else Line([ToString(uid), abilityName], ToString(abilityId))
  }

  function MainLabel(uid: int, abilityName: string, abilityId: int, byRequest: bool, taskId: int): string {
    var hash := ToString(NameHash(abilityName));
    if byRequest then Line([TASK_PREFIX, ToString(uid), hash, ToString(abilityId)], ToString(taskId))
    else Line([TASK_PREFIX, ToString(uid), hash], ToString(abilityId))
  }

  function SubLabel(uid: int, abilityName: string, abilityId: int, taskId: int, pid: int): string {
    Line([TASK_PREFIX, ToString(uid), ToString(NameHash(abilityName)), ToString(abilityId), ToString(taskId)],
         ToString(pid))
  }

  function BannerLabel(bundleName: string, userId: int, appIndex: int): string {
    Line([BANNER_PREFIX, ToString(userId), ToString(appIndex)], bundleName)
  }

  // ---------------------------------------------------------------- splitting

  /** Position of the first `c` in `s`, or |s| when there is none. */
  function IndexOf(s: string, c: char): (i: nat)
    ensures i <= |s|
  {
    if s == "" || s[0] == c then 0 else 1 + IndexOf(s[1..], c)
  }

  /** What a getline loop collects: an empty piece at the very end is not reported. */
  function Split(s: string, c: char): seq<string>
    decreases |s|
  {
    if s == "" then [] else
      var i := IndexOf(s, c);
      if i == |s| then [s] else [s[..i]] + Split(s[i + 1..], c)
  }

  method StringSplit(str: string, delim: char) returns (ret: seq<string>)
    ensures ret == Split(str, delim)
  {
    hide Split, IndexOf;
    ret := [];
    assert Split("", delim) == [] by { SplitEmpty(delim); }
    var rest := str;
    while rest != ""
      invariant ret + Split(rest, delim) == Split(str, delim)
      decreases |rest|
    {
      var tmp := "";
      var i := 0;
      while i < |rest| && rest[i] != delim
        invariant 0 <= i <= |rest| && tmp == rest[..i] && delim !in tmp
      {
        tmp := tmp + [rest[i]];
        i := i + 1;
      }
      SplitStep(rest, i, delim);
      ret := ret + [tmp];
      rest := if i == |rest| then "" else rest[i + 1..];
    }
  }

  lemma SplitEmpty(c: char)
    ensures Split("", c) == []
  {
  }

  /** The first piece ends at the first separator. */
  lemma SplitStep(s: string, n: nat, c: char)
    requires s != "" && n <= |s| && c !in s[..n] && (n < |s| ==> s[n] == c)
    ensures Split(s, c) == [s[..n]] + if n == |s| then [] else Split(s[n + 1..], c)
  {
    IndexOfIs(s, n, c);
    assert s[..|s|] == s;
  }

  lemma {:induction false} IndexOfIs(s: string, n: nat, c: char)
    requires n <= |s| && c !in s[..n]
    requires n < |s| ==> s[n] == c
    ensures IndexOf(s, c) == n
  {
    if n > 0 {
      assert s[0] in s[..n];
      assert s[1..][..n - 1] == s[..n][1..];
      IndexOfIs(s[1..], n - 1, c);
    }
  }

  lemma IndexOfFirst(t: string, rest: string)
    requires SEPARATOR !in t
    ensures IndexOf(t + [SEPARATOR] + rest, SEPARATOR) == |t|
  {
    assert (t + [SEPARATOR] + rest)[..|t|] == t;
    IndexOfIs(t + [SEPARATOR] + rest, |t|, SEPARATOR);
  }

  predicate Plain(s: string) {
    SEPARATOR !in s
  }

  predicate AllPlain(tokens: seq<string>) {
    forall i :: 0 <= i < |tokens| ==> Plain(tokens[i])
  }

  lemma SplitCons(t: string, rest: string)
    requires Plain(t)
    ensures Split(t + [SEPARATOR] + rest, SEPARATOR) == [t] + Split(rest, SEPARATOR)
  {
    var s := t + [SEPARATOR] + rest;
    IndexOfFirst(t, rest);
    assert s[..|t|] == t && s[|t| + 1..] == rest;
  }

  lemma {:induction false} SplitLine(init: seq<string>, last: string)
    requires AllPlain(init)
    ensures Split(Line(init, last), SEPARATOR) == init + Split(last, SEPARATOR)
  {
    if init != [] {
      SplitLine(init[1..], last);
      SplitCons(init[0], Line(init[1..], last));
      assert init == [init[0]] + init[1..];
    }
  }

  lemma SplitPlain(t: string)
    requires Plain(t) && t != ""
    ensures Split(t, SEPARATOR) == [t]
  {
    assert t[..|t|] == t;
    IndexOfIs(t, |t|, SEPARATOR);
  }

  // ---------------------------------------------------------------- parser

  /** What the notification subscriber does with the label of a removed notification. */
  datatype Dismissal = Ignored | Banner(text: string) | Task(key: string, isSub: bool)

  function ParseTokens(text: string, t: seq<string>, abilityName: string): Dismissal {
    if |t| == 4 && t[0] == BANNER_PREFIX then Banner(text)
    else if |t| == 0 || t[0] != TASK_PREFIX || |t| > 6 || |t| < 4 then Ignored
    else if |t| == 5 || |t| == 6 then Task(Line([t[1], abilityName, t[3]], t[4]), |t| == 6)
    else Task(Line([t[1], abilityName], t[3]), false)
  }

  /** CancelNotificationByBgTask, for a request that carries the ability name and was not
      removed by the manager itself. */
  function ParseLabel(text: string, abilityName: string): Dismissal {
    ParseTokens(text, Split(text, SEPARATOR), abilityName)
  }

  lemma NumbersArePlain(n: int)
    ensures Plain(ToString(n)) && Split(ToString(n), SEPARATOR) == [ToString(n)]
  {
    SplitPlain(ToString(n));
  }

  lemma PrefixesArePlain()
    ensures Plain(TASK_PREFIX) && Plain(BANNER_PREFIX) && TASK_PREFIX != BANNER_PREFIX
  {
    assert TASK_PREFIX[2] != BANNER_PREFIX[2];
  }

  /** Round trip: the main label of any task, parsed with that task's ability name, gives back
      exactly the task's table key. Ability names may contain underscores. */
  lemma MainLabelRoundTrip(uid: int, abilityName: string, abilityId: int, byRequest: bool, taskId: int)
    ensures ParseLabel(MainLabel(uid, abilityName, abilityId, byRequest, taskId), abilityName)
         == Task(TaskKey(uid, abilityName, abilityId, byRequest, taskId), false)
  {
    var u, h, a, t := ToString(uid), ToString(NameHash(abilityName)), ToString(abilityId), ToString(taskId);
    PrefixesArePlain();
    NumbersArePlain(uid);
    NumbersArePlain(NameHash(abilityName));
    NumbersArePlain(abilityId);
    NumbersArePlain(taskId);
    if byRequest {
      SplitLine([TASK_PREFIX, u, h, a], t);
    } else {
      SplitLine([TASK_PREFIX, u, h], a);
    }
  }

  /** Round trip for the sub label, which exists for request-object tasks only and is the only
      kind of label for which the sub flag is set. */
  lemma SubLabelRoundTrip(uid: int, abilityName: string, abilityId: int, taskId: int, pid: int)
    ensures ParseLabel(SubLabel(uid, abilityName, abilityId, taskId, pid), abilityName)
         == Task(TaskKey(uid, abilityName, abilityId, true, taskId), true)
  {
    PrefixesArePlain();
    NumbersArePlain(uid);
    NumbersArePlain(NameHash(abilityName));
    NumbersArePlain(abilityId);
    NumbersArePlain(taskId);
    NumbersArePlain(pid);
    SplitLine([TASK_PREFIX, ToString(uid), ToString(NameHash(abilityName)), ToString(abilityId), ToString(taskId)],
              ToString(pid));
  }

  lemma {:induction false} SplitLength(s: string, c: char)
    ensures |Split(s, c)| == 0 <==> s == ""
    ensures |Split(s, c)| == 1 <==> s != "" && IndexOf(s, c) >= |s| - 1
  {
    if s != "" {
      var i := IndexOf(s, c);
      if i < |s| {
        SplitLength(s[i + 1..], c);
      }
    }
  }

  lemma BannerTokens(text: string, init: seq<string>, last: seq<string>, abilityName: string)
    requires |init| == 3 && init[0] == BANNER_PREFIX
    ensures ParseTokens(text, init + last, abilityName) == if |last| == 1 then Banner(text) else Ignored
  {
    PrefixesArePlain();
  }

  /** A dismissed banner reaches the authorization table exactly when its bundle name is a single
      token: not empty, and without an underscore except perhaps as its last character. Any other
      banner label is ignored. */
  lemma BannerLabelParse(bundleName: string, userId: int, appIndex: int, abilityName: string)
    ensures ParseLabel(BannerLabel(bundleName, userId, appIndex), abilityName)
         == if bundleName != "" && IndexOf(bundleName, SEPARATOR) >= |bundleName| - 1
            then Banner(BannerLabel(bundleName, userId, appIndex)) else Ignored
  {
    hide Split, Line, IndexOf, ParseTokens, ToString;
    var u, i := ToString(userId), ToString(appIndex);
    var tail := Split(bundleName, SEPARATOR);
    assert Split(Line([BANNER_PREFIX, u, i], bundleName), SEPARATOR) == [BANNER_PREFIX, u, i] + tail by {
      PrefixesArePlain();
      NumbersArePlain(userId);
      NumbersArePlain(appIndex);
      SplitLine([BANNER_PREFIX, u, i], bundleName);
    }
    BannerTokens(BannerLabel(bundleName, userId, appIndex), [BANNER_PREFIX, u, i], tail, abilityName);
    SplitLength(bundleName, SEPARATOR);
  }

  /** A banner of a bundle with an underscore inside its name cannot be dismissed. */
  lemma UnderscoreBannerIgnored(userId: int, appIndex: int, abilityName: string)
    ensures ParseLabel(BannerLabel("a_b", userId, appIndex), abilityName) == Ignored
  {
    BannerLabelParse("a_b", userId, appIndex, abilityName);
    IndexOfIs("a_b", 1, SEPARATOR);
  }

  // ---------------------------------------------------------------- injectivity

  lemma FirstTokenUnique(a: string, x: string, b: string, y: string)
    requires Plain(a) && Plain(b)
    requires a + [SEPARATOR] + x == b + [SEPARATOR] + y
    ensures a == b && x == y
  {
    var s := a + [SEPARATOR] + x;
    IndexOfFirst(a, x);
    IndexOfFirst(b, y);
    assert a == s[..|a|] && b == s[..|b|] && x == s[|a| + 1..] && y == s[|b| + 1..];
  }

  lemma {:induction false} LineInjective(init: seq<string>, last: string, init': seq<string>, last': string)
    requires |init| == |init'|
    requires AllPlain(init) && AllPlain(init')
    requires Line(init, last) == Line(init', last')
    ensures init == init' && last == last'
  {
    if init != [] {
      FirstTokenUnique(init[0], Line(init[1..], last), init'[0], Line(init'[1..], last'));
      LineInjective(init[1..], last, init'[1..], last');
    }
  }

  /** The banner label determines user, clone index and bundle, whatever the bundle name is. */
  lemma BannerLabelInjective(b1: string, u1: int, i1: int, b2: string, u2: int, i2: int)
    requires BannerLabel(b1, u1, i1) == BannerLabel(b2, u2, i2)
    ensures b1 == b2 && u1 == u2 && i1 == i2
  {
    PrefixesArePlain();
    NumbersArePlain(u1);
    NumbersArePlain(u2);
    NumbersArePlain(i1);
    NumbersArePlain(i2);
    var l1, l2 := [BANNER_PREFIX, ToString(u1), ToString(i1)], [BANNER_PREFIX, ToString(u2), ToString(i2)];
    LineInjective(l1, b1, l2, b2);
    assert l1[1] == l2[1] && l1[2] == l2[2];
    ToStringInjective(u1, u2);
    ToStringInjective(i1, i2);
  }

  /** With underscore-free ability names a legacy key is never a request-object key. */
  lemma LegacyAndRequestKeysDiffer(uid: int, name: string, abilityId: int, any: int,
                                   uid': int, name': string, abilityId': int, taskId: int)
    requires Plain(name) && Plain(name')
    ensures TaskKey(uid, name, abilityId, false, any) != TaskKey(uid', name', abilityId', true, taskId)
  {
    NumbersArePlain(uid);
    NumbersArePlain(uid');
    NumbersArePlain(abilityId);
    NumbersArePlain(abilityId');
    NumbersArePlain(taskId);
    SplitLine([ToString(uid), name], ToString(abilityId));
    SplitLine([ToString(uid'), name', ToString(abilityId')], ToString(taskId));
  }

  /** ... and with underscores the two kinds of key can coincide. */
  lemma UnderscoreKeysCanCoincide(uid: int, abilityId: int, taskId: int, any: int)
    ensures TaskKey(uid, Line(["a"], ToString(abilityId)), taskId, false, any)
         == TaskKey(uid, "a", abilityId, true, taskId)
  {
    var u, a, t := ToString(uid), ToString(abilityId), ToString(taskId);
    var sep := [SEPARATOR];
    assert Line([], t) == t && Line([], a) == a;
    assert Line(["a"], a) == "a" + sep + a;
    assert [u, "a" + sep + a][1..] == ["a" + sep + a] && ["a" + sep + a][1..] == [];
    assert Line([u, "a" + sep + a], t) == u + sep + ("a" + sep + a + sep + t);
    assert [u, "a", a][1..] == ["a", a] && ["a", a][1..] == [a] && [a][1..] == [];
    assert Line([a], t) == a + sep + t;
    assert Line(["a", a], t) == "a" + sep + (a + sep + t);
    assert "a" + sep + a + sep + t == "a" + sep + (a + sep + t);
  }

  /** Only the label of an additional notification has six tokens. */
  predicate IsSubLabel(text: string) {
    |Split(text, SEPARATOR)| == 6
  }

  /** The label names application `uid`, which is its second token, and is a label of this kind. */
  predicate LabelOfUid(text: string, uid: int, isSub: bool) {
    var t := Split(text, SEPARATOR);
    |t| >= 2 && t[1] == ToString(uid) && (IsSubLabel(text) <==> isSub)
  }

  lemma LabelsNameTheirUid(uid: int, name: string, abilityId: int, byRequest: bool, taskId: int, pid: int)
    ensures LabelOfUid(MainLabel(uid, name, abilityId, byRequest, taskId), uid, false)
    ensures LabelOfUid(SubLabel(uid, name, abilityId, taskId, pid), uid, true)
  {
    var u, h, a, t := ToString(uid), ToString(NameHash(name)), ToString(abilityId), ToString(taskId);
    PrefixesArePlain();
    NumbersArePlain(uid);
    NumbersArePlain(NameHash(name));
    NumbersArePlain(abilityId);
    NumbersArePlain(taskId);
    NumbersArePlain(pid);
    SplitLine([TASK_PREFIX, u, h, a], t);
    SplitLine([TASK_PREFIX, u, h], a);
    SplitLine([TASK_PREFIX, u, h, a, t], ToString(pid));
  }

  lemma LabelNamesOneUid(text: string, u: int, b: bool, v: int, c: bool)
    requires LabelOfUid(text, u, b) && LabelOfUid(text, v, c)
    ensures u == v && b == c
  {
    ToStringInjective(u, v);
  }

  /** The label of an additional notification determines its task. */
  lemma SubLabelNamesTask(uid: int, name: string, abilityId: int, taskId: int, pid: int,
                          uid': int, name': string, abilityId': int, taskId': int, pid': int)
    requires SubLabel(uid, name, abilityId, taskId, pid) == SubLabel(uid', name', abilityId', taskId', pid')
    ensures taskId == taskId'
  {
    var l := [TASK_PREFIX, ToString(uid), ToString(NameHash(name)), ToString(abilityId), ToString(taskId)];
    var l' := [TASK_PREFIX, ToString(uid'), ToString(NameHash(name')), ToString(abilityId'), ToString(taskId')];
    PlainTokens(uid, NameHash(name), abilityId, taskId);
    PlainTokens(uid', NameHash(name'), abilityId', taskId');
    LineInjective(l, ToString(pid), l', ToString(pid'));
    assert l[4] == l'[4];
    ToStringInjective(taskId, taskId');
  }

  lemma PlainTokens(a: int, b: int, c: int, d: int)
    ensures AllPlain([TASK_PREFIX, ToString(a), ToString(b), ToString(c), ToString(d)])
  {
    PrefixesArePlain();
    NumbersArePlain(a);
    NumbersArePlain(b);
    NumbersArePlain(c);
    NumbersArePlain(d);
  }

  /** Keys of tasks of one kind of different applications differ, whatever the ability names. */
  lemma KeysNameUid(uid: int, name: string, abilityId: int, uid': int, name': string, abilityId': int,
                    byRequest: bool, taskId: int, taskId': int)
    requires uid != uid'
    ensures TaskKey(uid, name, abilityId, byRequest, taskId) != TaskKey(uid', name', abilityId', byRequest, taskId')
  {
    var a, a' := ToString(abilityId), ToString(abilityId');
    var rest := if byRequest then [name, a] else [name];
    var rest' := if byRequest then [name', a'] else [name'];
    var last := if byRequest then ToString(taskId) else a;
    var last' := if byRequest then ToString(taskId') else a';
    if Line([ToString(uid)] + rest, last) == Line([ToString(uid')] + rest', last') {
      NumbersArePlain(uid);
      NumbersArePlain(uid');
      FirstTokenUnique(ToString(uid), Line(rest, last), ToString(uid'), Line(rest', last'));
      ToStringInjective(uid, uid');
    }
    assert byRequest ==> [ToString(uid)] + rest == [ToString(uid), name, a];
    assert byRequest ==> [ToString(uid')] + rest' == [ToString(uid'), name', a'];
  }

  lemma {:induction false} LastTokenUnique(init: seq<string>, last: string, last': string)
    requires Line(init, last) == Line(init, last')
    ensures last == last'
  {
    if init != [] {
      var head := init[0] + [SEPARATOR];
      var x, y := Line(init[1..], last), Line(init[1..], last');
      assert (head + x)[|head|..] == x && (head + y)[|head|..] == y;
      LastTokenUnique(init[1..], last, last');
    }
  }

  /** Tasks of one ability have different request-object keys when their ids differ. */
  lemma RequestKeysNameTask(uid: int, name: string, abilityId: int, taskId: int, taskId': int)
    requires TaskKey(uid, name, abilityId, true, taskId) == TaskKey(uid, name, abilityId, true, taskId')
    ensures taskId == taskId'
  {
    LastTokenUnique([ToString(uid), name, ToString(abilityId)], ToString(taskId), ToString(taskId'));
    ToStringInjective(taskId, taskId');
  }
}
