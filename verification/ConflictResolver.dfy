/** Automatic resolution of merge conflicts: the validation of what the model
    answers, the assembly of the overrides, and the rounds around both. */
module ConflictResolver {
  import opened Wrappers
  import opened TextUtil

  type Bytes = seq<nat>

  const RESOLVE_MAX_ATTEMPTS: nat := 3
  const LOCKFILE_NAMES := [
    "package-lock.json", "npm-shrinkwrap.json", "yarn.lock", "pnpm-lock.yaml", "Cargo.lock",
    "poetry.lock", "Pipfile.lock", "Gemfile.lock", "composer.lock", "packages.lock.json"]
  const REGENERATE := "建议重新生成"

  // ----- Text helpers -----

  function BaseName(path: string): string {
    if path == [] then []
    else if path[|path| - 1] == '/' then []
    else BaseName(path[..|path| - 1]) + [path[|path| - 1]]
  }

  predicate OccursAt(s: string, x: string, k: nat) {
    k + |x| <= |s| && s[k..k + |x|] == x
  }

  predicate Contains(s: string, x: string) {
    exists k :: 0 <= k <= |s| && OccursAt(s, x, k)
  }

  /** Text from the first opening to the last closing brace. */
  function JsonText(raw: string): Option<string> {
    match (FirstIndex(raw, '{'), LastIndex(raw, '}'))
    case (Some(from), Some(to)) => if from <= to + 1 then Some(raw[from..to + 1]) else None
    case _ => None
  }

  function FirstIndex(s: string, c: char): (k: Option<nat>)
    ensures k.None? <==> c !in s
    ensures k.Some? ==> k.value < |s| && s[k.value] == c && c !in s[..k.value]
  {
    if s == [] then None
    else if s[0] == c then Some(0)
    else
      match FirstIndex(s[1..], c)
      case None => None
      case Some(k) =>
        assert s[..k + 1] == [s[0]] + s[1..][..k];
        Some(k + 1)
  }

  function LastIndex(s: string, c: char): (k: Option<nat>)
    ensures k.None? <==> c !in s
    ensures k.Some? ==> k.value < |s| && s[k.value] == c && c !in s[k.value + 1..]
  {
    if s == [] then None
    else if s[|s| - 1] == c then Some(|s| - 1)
    else
      match LastIndex(s[..|s| - 1], c)
      case None =>
        assert s == s[..|s| - 1] + [s[|s| - 1]];
        None
      case Some(k) =>
        assert s[k + 1..] == s[..|s| - 1][k + 1..] + [s[|s| - 1]];
        Some(k)
  }

  /** An object text in prose: no brace opens before it and none closes behind it;
      whatever braces are inside. */
  predicate Wraps(raw: string, pre: string, body: string, post: string) {
    && raw == pre + body + post && '{' !in pre && '}' !in post
    && body != [] && body[0] == '{' && body[|body| - 1] == '}'
  }

  lemma {:induction false} FirstIs(s: string, c: char, k: nat)
    requires k < |s| && s[k] == c && c !in s[..k]
    ensures FirstIndex(s, c) == Some(k)
  {
    if k > 0 {
      assert s[0] == s[..k][0];
      assert s[1..][..k - 1] == s[..k][1..];
      FirstIs(s[1..], c, k - 1);
    }
  }

  lemma {:induction false} LastIs(s: string, c: char, k: nat)
    requires k < |s| && s[k] == c && c !in s[k + 1..]
    ensures LastIndex(s, c) == Some(k)
  {
    var n := |s| - 1;
    if k < n {
      assert s[n] == s[k + 1..][n - k - 1];
      assert s[..n][k + 1..] == s[k + 1..][..n - k - 1];
      LastIs(s[..n], c, k);
    }
  }

  lemma JsonTextIsBody(raw: string, pre: string, body: string, post: string)
    requires Wraps(raw, pre, body, post)
    ensures JsonText(raw) == Some(body)
  {
    var first, last := |pre|, |pre| + |body| - 1;
    assert raw[..first] == pre && raw[last + 1..] == post && raw[first..last + 1] == body;
    FirstIs(raw, '{', first);
    LastIs(raw, '}', last);
  }

  /** The last closing brace stands before the first opening one, with something in
      between. */
  ghost predicate Reversed(raw: string) {
    exists to, from :: 0 <= to && to + 1 < from < |raw| && raw[to] == '}' && '}' !in raw[to + 1..]
      && raw[from] == '{' && '{' !in raw[..from]
  }

  /** No text is found exactly when a kind of brace is missing or they are reversed. */
  lemma NoJsonTextIff(raw: string)
    ensures JsonText(raw).None? <==> '{' !in raw || '}' !in raw || Reversed(raw)
  {
    if Reversed(raw) {
      var to, from :| 0 <= to && to + 1 < from < |raw| && raw[to] == '}' && '}' !in raw[to + 1..]
        && raw[from] == '{' && '{' !in raw[..from];
      FirstIs(raw, '{', from);
      LastIs(raw, '}', to);
    }
  }

  // ----- Conflicts, answers, resolutions -----

  /** A conflicting file; a side without the file is `None`. */
  datatype ConflictFile = ConflictFile(path: string, binary: bool, ours: Option<Bytes>, theirs: Option<Bytes>)

  /** One entry of the answer; a field that is absent or no string is `None`.
      The content is given by its bytes. */
  datatype Item = Item(path: Option<string>, action: Option<string>, reason: Option<string>, content: Option<Bytes>)

  datatype Action = Merge | Ours | Theirs

  datatype Resolution = Resolution(path: string, action: Action, content: Option<Bytes>, reason: string)

  function ParseAction(s: string): Option<Action> {
    var t := Trim(s);
    if t == "merge" then Some(Merge)
    else if t == "ours" then Some(Ours)
    else if t == "theirs" then Some(Theirs)
    else None
  }

  function Find(conflicts: seq<ConflictFile>, path: string): (f: Option<ConflictFile>)
    ensures f.Some? ==> f.value in conflicts && f.value.path == path
    ensures f.None? <==> forall g :: g in conflicts ==> g.path != path
  {
    if conflicts == [] then None
    else if conflicts[0].path == path then Some(conflicts[0])
    else Find(conflicts[1..], path)
  }

  datatype Why =
    | NoPath | OutOfScope | Duplicate | NoAction | BadAction | NoReason | LockfileReason
    | BinaryMerge | NoContent | NoOurs | NoTheirs

  datatype Fault = NoObject | NotParsed | At(index: nat, why: Why) | Missing(paths: seq<string>)

  // ----- What a valid answer is -----

  /** Field `o`, trimmed; empty when it is missing. */
  function Text(o: Option<string>): string {
    match o
    case None => []
    case Some(s) => Trim(s)
  }

  function ActionOf(item: Item): Option<Action> {
    match item.action
    case None => None
    case Some(s) => ParseAction(s)
  }

  predicate LockfileOk(item: Item) {
    BaseName(Text(item.path)) in LOCKFILE_NAMES ==> Contains(Text(item.reason), REGENERATE)
  }

  /** The action can be carried out on the file. */
  predicate Expressible(action: Action, content: Option<Bytes>, f: ConflictFile) {
    match action
    case Merge => !f.binary && content.Some? && content.value != []
    case Ours => f.ours.Some?
    case Theirs => f.theirs.Some?
  }

  predicate ItemOk(item: Item, conflicts: seq<ConflictFile>) {
    && Text(item.path) != []
    && Text(item.reason) != []
    && LockfileOk(item)
    && ActionOf(item).Some?
    && Find(conflicts, Text(item.path)).Some?
    && Expressible(ActionOf(item).value, item.content, Find(conflicts, Text(item.path)).value)
  }

  predicate Repeats(items: seq<Item>, i: nat)
    requires i < |items|
  {
    exists j :: 0 <= j < i && Text(items[j].path) == Text(items[i].path)
  }

  predicate Covered(items: seq<Item>, path: string) {
    exists i :: 0 <= i < |items| && Text(items[i].path) == path
  }

  ghost predicate Valid(items: seq<Item>, conflicts: seq<ConflictFile>) {
    && (forall i :: 0 <= i < |items| ==> ItemOk(items[i], conflicts) && !Repeats(items, i))
    && (forall f :: f in conflicts ==> Covered(items, f.path))
  }

  function Resolved(item: Item): Resolution
    requires ActionOf(item).Some?
  {
    var action := ActionOf(item).value;
    Resolution(Text(item.path), action, if action.Merge? then item.content else None, Text(item.reason))
  }

  /** The reported fault is a real one, of the first item that has any. */
  ghost predicate Explains(fault: Fault, items: seq<Item>, conflicts: seq<ConflictFile>) {
    match fault
    case NoObject | NotParsed => false
    case Missing(paths) =>
      && paths != []
      && (forall i :: 0 <= i < |items| ==> ItemOk(items[i], conflicts) && !Repeats(items, i))
      && forall p :: p in paths <==> !Covered(items, p) && exists f :: f in conflicts && f.path == p
    case At(k, why) =>
      && k < |items|
      && (forall i :: 0 <= i < k ==> ItemOk(items[i], conflicts) && !Repeats(items, i))
      && FaultOf(why, items, k, conflicts)
  }

  ghost predicate FaultOf(why: Why, items: seq<Item>, k: nat, conflicts: seq<ConflictFile>)
    requires k < |items|
  {
    var item := items[k];
    var file := Find(conflicts, Text(item.path));
    match why
    case NoPath => Text(item.path) == []
    case OutOfScope => file.None?
    case Duplicate => Repeats(items, k)
    case NoAction => item.action.None?
    case BadAction => item.action.Some? && ActionOf(item).None?
    case NoReason => Text(item.reason) == []
    case LockfileReason => !LockfileOk(item)
    case BinaryMerge => ActionOf(item) == Some(Merge) && file.Some? && file.value.binary
    case NoContent => ActionOf(item) == Some(Merge) && (item.content.None? || item.content.value == [])
    case NoOurs => ActionOf(item) == Some(Ours) && file.Some? && file.value.ours.None?
    case NoTheirs => ActionOf(item) == Some(Theirs) && file.Some? && file.value.theirs.None?
  }

  // ----- The validation loop of `parse_resolutions` -----

  /** The checks on one entry, in the order of `parse_resolutions`. */
  method CheckItem(item: Item, conflicts: seq<ConflictFile>, seen: set<string>) returns (r: Result<Resolution, Why>)
    ensures r.Ok? <==> ItemOk(item, conflicts) && Text(item.path) !in seen
    ensures r.Ok? ==> r.value == Resolved(item)
    ensures r.Err? && r.error == Duplicate ==> Text(item.path) in seen
    ensures r.Err? && r.error != Duplicate ==> FaultOf(r.error, [item], 0, conflicts)
  {
    if item.path.None? || Trim(item.path.value) == [] {
      return Err(NoPath);
    }
    var path := Trim(item.path.value);
    var file := Find(conflicts, path);
    if file.None? {
      return Err(OutOfScope);
    }
    if path in seen {
      return Err(Duplicate);
    }
    if item.action.None? {
      return Err(NoAction);
    }
    var action := ParseAction(item.action.value);
    if action.None? {
      return Err(BadAction);
    }
    if item.reason.None? || Trim(item.reason.value) == [] {
      return Err(NoReason);
    }
    var reason := Trim(item.reason.value);
    if BaseName(path) in LOCKFILE_NAMES && !Contains(reason, REGENERATE) {
      return Err(LockfileReason);
    }
    match action.value {
      case Merge =>
        if file.value.binary {
          return Err(BinaryMerge);
        }
        if item.content.None? || item.content.value == [] {
          return Err(NoContent);
        }
        return Ok(Resolution(path, Merge, item.content, reason));
      case Ours =>
        if file.value.ours.None? {
          return Err(NoOurs);
        }
        return Ok(Resolution(path, Ours, None, reason));
      case Theirs =>
        if file.value.theirs.None? {
          return Err(NoTheirs);
        }
        return Ok(Resolution(path, Theirs, None, reason));
    }
  }

  ghost predicate FineUpTo(items: seq<Item>, conflicts: seq<ConflictFile>, n: nat)
    requires n <= |items|
  {
    forall i :: 0 <= i < n ==> ItemOk(items[i], conflicts) && !Repeats(items, i)
  }

  /** The first entry that does not pass. */
  lemma FailsAt(items: seq<Item>, conflicts: seq<ConflictFile>, i: nat, why: Why)
    requires i < |items| && FineUpTo(items, conflicts, i) && FaultOf(why, items, i, conflicts)
    requires !(ItemOk(items[i], conflicts) && !Repeats(items, i))
    ensures Explains(At(i, why), items, conflicts) && !Valid(items, conflicts)
  {
    hide ItemOk, Repeats, FaultOf;
  }

  lemma FaultCarriesOver(items: seq<Item>, conflicts: seq<ConflictFile>, i: nat, why: Why)
    requires i < |items| && why != Duplicate && FaultOf(why, [items[i]], 0, conflicts)
    ensures FaultOf(why, items, i, conflicts)
  {
    hide Find, Trim, LockfileOk, ParseAction;
    assert [items[i]][0] == items[i];
  }

  /** Every entry passes: what is left is whether each conflict file is handled. */
  lemma AllPass(items: seq<Item>, conflicts: seq<ConflictFile>, missing: seq<string>)
    requires FineUpTo(items, conflicts, |items|) && missing == MissingPaths(conflicts, PathsOf(items))
    ensures Valid(items, conflicts) <==> missing == []
    ensures missing != [] ==> Explains(Missing(missing), items, conflicts)
  {
    MissingMeans(items, conflicts, missing);
    hide ItemOk, Repeats, Covered, MissingPaths, PathsOf;
  }

  /** One entry more has passed. */
  lemma OnePasses(items: seq<Item>, conflicts: seq<ConflictFile>, i: nat, out: seq<Resolution>)
    requires i < |items| && FineUpTo(items, conflicts, i) && ResolvesEach(out, items[..i])
    requires ItemOk(items[i], conflicts) && !Repeats(items, i)
    ensures FineUpTo(items, conflicts, i + 1)
    ensures ResolvesEach(out + [Resolved(items[i])], items[..i + 1])
    ensures PathsOf(items[..i + 1]) == PathsOf(items[..i]) + {Resolved(items[i]).path}
  {
    hide Trim, Find, LockfileOk, Expressible, ParseAction;
    assert items[..i + 1] == items[..i] + [items[i]];
  }

  /** All entries, then the completeness check. Success means exactly a valid
      answer, and a failure is explained. */
  method ParseItems(items: seq<Item>, conflicts: seq<ConflictFile>) returns (r: Result<seq<Resolution>, Fault>)
    ensures r.Ok? <==> Valid(items, conflicts)
    ensures r.Ok? ==> ResolvesEach(r.value, items)
    ensures r.Err? ==> Explains(r.error, items, conflicts)
  {
    hide ItemOk, Repeats, FaultOf, Valid, Explains, ResolvesEach, PathsOf, MissingPaths, Text;
    var seen: set<string> := {};
    var out: seq<Resolution> := [];
    NonePassedYet(items, conflicts);
    var i := 0;
    while i < |items|
      invariant 0 <= i <= |items|
      invariant FineUpTo(items, conflicts, i)
      invariant seen == PathsOf(items[..i])
      invariant ResolvesEach(out, items[..i])
    {
      SeenIsRepeats(items, i);
      var checked := CheckItem(items[i], conflicts, seen);
      if checked.Err? {
        if checked.error == Duplicate {
          IsDuplicate(items, conflicts, i);
        } else {
          FaultCarriesOver(items, conflicts, i, checked.error);
        }
        FailsAt(items, conflicts, i, checked.error);
        return Err(At(i, checked.error));
      }
      OnePasses(items, conflicts, i, out);
      seen := seen + {checked.value.path};
      out := out + [checked.value];
      i := i + 1;
    }
    assert items[..i] == items;
    var missing := MissingPaths(conflicts, seen);
    AllPass(items, conflicts, missing);
    if missing != [] {
      return Err(Missing(missing));
    }
    return Ok(out);
  }

  lemma NonePassedYet(items: seq<Item>, conflicts: seq<ConflictFile>)
    ensures FineUpTo(items, conflicts, 0) && PathsOf(items[..0]) == {} && ResolvesEach([], items[..0])
  {
  }

  lemma IsDuplicate(items: seq<Item>, conflicts: seq<ConflictFile>, i: nat)
    requires i < |items| && Repeats(items, i)
    ensures FaultOf(Duplicate, items, i, conflicts)
  {
  }

  /** The paths the entries name. */
  function PathsOf(items: seq<Item>): set<string> {
    set item | item in items :: Text(item.path)
  }

  ghost predicate ResolvesEach(out: seq<Resolution>, items: seq<Item>) {
    |out| == |items| && forall i :: 0 <= i < |items| ==> ActionOf(items[i]).Some? && out[i] == Resolved(items[i])
  }

  lemma SeenIsRepeats(items: seq<Item>, i: nat)
    requires i < |items|
    ensures Text(items[i].path) in PathsOf(items[..i]) <==> Repeats(items, i)
  {
    hide Trim;
    if Repeats(items, i) {
      var j :| 0 <= j < i && Text(items[j].path) == Text(items[i].path);
      assert items[..i][j] == items[j];
    }
  }

  /** The conflict files nobody handled, in order. */
  function MissingPaths(conflicts: seq<ConflictFile>, seen: set<string>): (m: seq<string>)
    ensures forall p :: p in m <==> p !in seen && exists f :: f in conflicts && f.path == p
  {
    if conflicts == [] then []
    else (if conflicts[0].path !in seen then [conflicts[0].path] else []) + MissingPaths(conflicts[1..], seen)
  }

  lemma MissingMeans(items: seq<Item>, conflicts: seq<ConflictFile>, missing: seq<string>)
    requires missing == MissingPaths(conflicts, PathsOf(items))
    ensures forall p :: p in missing <==> !Covered(items, p) && exists f :: f in conflicts && f.path == p
    ensures missing == [] <==> forall f :: f in conflicts ==> Covered(items, f.path)
  {
    hide Trim;
    forall p ensures p in PathsOf(items) <==> Covered(items, p) {
      if Covered(items, p) {
        var i :| 0 <= i < |items| && Text(items[i].path) == p;
        assert items[i] in items;
      }
    }
    if missing == [] {
      forall f | f in conflicts ensures Covered(items, f.path) {
        assert f.path !in missing;
      }
    } else {
      assert missing[0] in missing;
    }
  }

  /** From the raw answer: cut out the object, parse it, validate the entries. */
  method ParseResolutions(raw: string, parse: string -> Option<seq<Item>>, conflicts: seq<ConflictFile>)
      returns (r: Result<seq<Resolution>, Fault>)
    ensures r.Ok? <==>
      && JsonText(raw).Some? && parse(JsonText(raw).value).Some?
      && Valid(parse(JsonText(raw).value).value, conflicts)
    ensures r.Ok? ==> ResolvesEach(r.value, parse(JsonText(raw).value).value)
    ensures forall pre, body, post :: Wraps(raw, pre, body, post) ==>
      (r.Ok? <==> parse(body).Some? && Valid(parse(body).value, conflicts))
  {
    forall pre, body, post | Wraps(raw, pre, body, post) ensures JsonText(raw) == Some(body) {
      JsonTextIsBody(raw, pre, body, post);
    }
    var text := JsonText(raw);
    if text.None? {
      return Err(NoObject);
    }
    var items := parse(text.value);
    if items.None? {
      return Err(NotParsed);
    }
    r := ParseItems(items.value, conflicts);
  }

  // ----- What success buys -----

  /** Each conflict path is handled exactly once and nothing else is. */
  ghost predicate ExactCover(out: seq<Resolution>, conflicts: seq<ConflictFile>) {
    && (forall i, j :: 0 <= i < j < |out| ==> out[i].path != out[j].path)
    && (forall i :: 0 <= i < |out| ==> Find(conflicts, out[i].path).Some?)
    && (forall f :: f in conflicts ==> exists i :: 0 <= i < |out| && out[i].path == f.path)
  }

  lemma SuccessIsExactCover(items: seq<Item>, conflicts: seq<ConflictFile>, out: seq<Resolution>)
    requires Valid(items, conflicts) && ResolvesEach(out, items)
    ensures ExactCover(out, conflicts)
  {
    hide Find, Trim, ParseAction, LockfileOk, Expressible;
    forall i, j | 0 <= i < j < |out| ensures out[i].path != out[j].path {
      assert !Repeats(items, j);
    }
    forall i | 0 <= i < |out| ensures Find(conflicts, out[i].path).Some? {
      assert ItemOk(items[i], conflicts);
    }
    forall f | f in conflicts ensures exists i :: 0 <= i < |out| && out[i].path == f.path {
      assert Covered(items, f.path);
      var i :| 0 <= i < |items| && Text(items[i].path) == f.path;
      assert out[i].path == f.path;
    }
  }

  // ----- The words of an action -----

  function Word(a: Action): string {
    match a
    case Merge => "merge"
    case Ours => "ours"
    case Theirs => "theirs"
  }

  /** An action is read exactly from its word with white space around it. */
  lemma ActionIff(s: string, a: Action)
    ensures ParseAction(s) == Some(a) <==>
      exists pre, post :: AllWhite(pre) && AllWhite(post) && s == pre + Word(a) + post
  {
    var p, q := TrimIsExact(s);
    if Trim(s) == Word(a) {
      assert s == p + Word(a) + q;
    }
    if pre, post :| AllWhite(pre) && AllWhite(post) && s == pre + Word(a) + post {
      assert s == pre + (Word(a) + post);
      StartSkips(pre, Word(a) + post);
      assert TrimStart(Word(a) + post) == Word(a) + post;
      EndSkips(Word(a), post);
    }
  }

  // ----- Lock files -----

  lemma {:induction false} BaseNameIs(dir: string, name: string)
    requires '/' !in name
    ensures BaseName(name) == name && BaseName(dir + "/" + name) == name
  {
    var path := dir + "/" + name;
    if name == [] {
      assert path[|path| - 1] == '/';
    } else {
      var n := |name| - 1;
      BaseNameIs(dir, name[..n]);
      assert name == name[..n] + [name[n]] && path[..|path| - 1] == dir + "/" + name[..n];
    }
  }

  lemma ContainsIff(s: string, x: string)
    ensures Contains(s, x) <==> exists pre, post :: s == pre + x + post
  {
    if Contains(s, x) {
      var k :| 0 <= k <= |s| && OccursAt(s, x, k);
      assert s == s[..k] + x + s[k + |x|..];
    }
    if pre, post :| s == pre + x + post {
      assert OccursAt(s, x, |pre|);
    }
  }

  lemma NamesHaveNoSlash()
    ensures forall name :: name in LOCKFILE_NAMES ==> '/' !in name
  {
  }

  /** A valid answer that touches a lock file, in whatever directory, advises in its
      reason to generate the file anew. */
  lemma LockfileNeedsAdvice(items: seq<Item>, conflicts: seq<ConflictFile>, i: nat, dir: string, name: string)
    requires Valid(items, conflicts) && i < |items| && name in LOCKFILE_NAMES
    requires Text(items[i].path) == name || Text(items[i].path) == dir + "/" + name
    ensures exists pre, post :: Text(items[i].reason) == pre + REGENERATE + post
  {
    NamesHaveNoSlash();
    BaseNameIs(dir, name);
    assert ItemOk(items[i], conflicts);
    ContainsIff(Text(items[i].reason), REGENERATE);
    hide Trim, BaseName, Contains, Find;
  }

  datatype OverrideFault = NotInConflicts | MergeWithoutContent | OursAbsent | TheirsAbsent

  /** The bytes to commit for one resolution. */
  function OverrideContent(r: Resolution, conflicts: seq<ConflictFile>): Result<(string, Bytes), OverrideFault> {
    match Find(conflicts, r.path)
    case None => Err(NotInConflicts)
    case Some(f) =>
      match r.action
      case Merge => if r.content.Some? then Ok((r.path, r.content.value)) else Err(MergeWithoutContent)
      case Ours => if f.ours.Some? then Ok((r.path, f.ours.value)) else Err(OursAbsent)
      case Theirs => if f.theirs.Some? then Ok((r.path, f.theirs.value)) else Err(TheirsAbsent)
  }

  /** What a committed file may contain: one of the two sides as they stand, or,
      for a text file only, the merged text of the answer, which is not empty. */
  ghost predicate Sound(path: string, bytes: Bytes, item: Item, f: ConflictFile) {
    && f.path == path
    && (|| (ActionOf(item) == Some(Merge) && !f.binary && bytes != [] && item.content == Some(bytes))
        || (ActionOf(item) == Some(Ours) && f.ours == Some(bytes))
        || (ActionOf(item) == Some(Theirs) && f.theirs == Some(bytes)))
  }

  lemma OverrideSucceeds(item: Item, conflicts: seq<ConflictFile>)
    requires ItemOk(item, conflicts)
    ensures var r := Resolved(item);
      && OverrideContent(r, conflicts).Ok?
      && OverrideContent(r, conflicts).value.0 == r.path
      && Sound(r.path, OverrideContent(r, conflicts).value.1, item, Find(conflicts, r.path).value)
  {
    hide Trim, ParseAction, LockfileOk, Find;
    assert Find(conflicts, Resolved(item).path).value.path == Resolved(item).path;
  }

  /** The assembly step before the commit. */
  method AssembleOverrides(out: seq<Resolution>, conflicts: seq<ConflictFile>)
      returns (r: Result<seq<(string, Bytes)>, OverrideFault>)
    ensures r.Ok? <==> forall i :: 0 <= i < |out| ==> OverrideContent(out[i], conflicts).Ok?
    ensures r.Ok? ==>
      && |r.value| == |out|
      && forall i :: 0 <= i < |out| ==> OverrideContent(out[i], conflicts) == Ok(r.value[i])
  {
    hide OverrideContent;
    var done := [];
    for i := 0 to |out|
      invariant |done| == i
      invariant forall j :: 0 <= j < i ==> OverrideContent(out[j], conflicts) == Ok(done[j])
    {
      var one := OverrideContent(out[i], conflicts);
      if one.Err? {
        return Err(one.error);
      }
      done := done + [one.value];
    }
    r := Ok(done);
  }

  // ----- The rounds -----

  /** Up to three answers; a failing call ends the attempt, a rejected answer is
      followed by the next round. `reply(n)` is the answer of round `n`. */
  method HardResolve(reply: nat -> Option<string>, parse: string -> Option<seq<Item>>, conflicts: seq<ConflictFile>)
      returns (overrides: Option<seq<(string, Bytes)>>, rounds: nat)
    ensures rounds <= RESOLVE_MAX_ATTEMPTS
    ensures overrides.Some? <==>
      exists n :: 1 <= n <= RESOLVE_MAX_ATTEMPTS && Accepts(reply, parse, conflicts, n)
        && forall m :: 1 <= m < n ==> reply(m).Some? && !Accepts(reply, parse, conflicts, m)
    ensures overrides.Some? ==> CoversOnce(overrides.value, conflicts)
  {
    rounds := 0;
    while rounds < RESOLVE_MAX_ATTEMPTS
      invariant rounds <= RESOLVE_MAX_ATTEMPTS
      invariant forall m :: 1 <= m <= rounds ==> reply(m).Some? && !Accepts(reply, parse, conflicts, m)
    {
      rounds := rounds + 1;
      var raw := reply(rounds);
      if raw.None? {
        return None, rounds;
      }
      var parsed := ParseResolutions(raw.value, parse, conflicts);
      if parsed.Ok? {
        ghost var items := parse(JsonText(raw.value).value).value;
        AllOverridesSucceed(items, conflicts, parsed.value);
        var assembled := AssembleOverrides(parsed.value, conflicts);
        CoverCarriesOver(parsed.value, conflicts, assembled.value);
        assert Accepts(reply, parse, conflicts, rounds);
        return Some(assembled.value), rounds;
      }
      assert !Accepts(reply, parse, conflicts, rounds);
    }
    return None, rounds;
  }

  /** Round `n` gives a valid answer. */
  ghost predicate Accepts(reply: nat -> Option<string>, parse: string -> Option<seq<Item>>,
                          conflicts: seq<ConflictFile>, n: nat) {
    && reply(n).Some?
    && JsonText(reply(n).value).Some?
    && parse(JsonText(reply(n).value).value).Some?
    && Valid(parse(JsonText(reply(n).value).value).value, conflicts)
  }

  ghost predicate CoversOnce(overrides: seq<(string, Bytes)>, conflicts: seq<ConflictFile>) {
    && (forall i, j :: 0 <= i < j < |overrides| ==> overrides[i].0 != overrides[j].0)
    && (forall i :: 0 <= i < |overrides| ==> Find(conflicts, overrides[i].0).Some?)
    && (forall f :: f in conflicts ==> exists i :: 0 <= i < |overrides| && overrides[i].0 == f.path)
  }

  lemma AllOverridesSucceed(items: seq<Item>, conflicts: seq<ConflictFile>, out: seq<Resolution>)
    requires Valid(items, conflicts) && ResolvesEach(out, items)
    ensures ExactCover(out, conflicts)
    ensures forall i :: 0 <= i < |out| ==>
      OverrideContent(out[i], conflicts).Ok? && OverrideContent(out[i], conflicts).value.0 == out[i].path
  {
    hide ItemOk, Resolved, OverrideContent, ExactCover;
    SuccessIsExactCover(items, conflicts, out);
    forall i | 0 <= i < |out|
      ensures OverrideContent(out[i], conflicts).Ok? && OverrideContent(out[i], conflicts).value.0 == out[i].path
    {
      assert ItemOk(items[i], conflicts);
      OverrideSucceeds(items[i], conflicts);
    }
  }

  lemma CoverCarriesOver(out: seq<Resolution>, conflicts: seq<ConflictFile>, overrides: seq<(string, Bytes)>)
    requires ExactCover(out, conflicts) && |overrides| == |out|
    requires forall i :: 0 <= i < |out| ==> overrides[i].0 == out[i].path
    ensures CoversOnce(overrides, conflicts)
  {
    hide Find;
    forall f | f in conflicts ensures exists i :: 0 <= i < |overrides| && overrides[i].0 == f.path {
      var i :| 0 <= i < |out| && out[i].path == f.path;
      assert overrides[i].0 == f.path;
    }
  }

  // ----- Which conflicts can be resolved at all -----

  /** Some answer is valid for these conflicts. */
  ghost predicate Resolvable(conflicts: seq<ConflictFile>) {
    exists items :: Valid(items, conflicts)
  }

  /** The path survives trimming, and the file is text or has a side to take. */
  predicate CanResolve(path: string, f: ConflictFile) {
    path != [] && Trim(path) == path && (!f.binary || f.ours.Some? || f.theirs.Some?)
  }

  lemma OnlyTheseResolve(items: seq<Item>, conflicts: seq<ConflictFile>, f: ConflictFile)
    requires Valid(items, conflicts) && f in conflicts
    ensures CanResolve(f.path, Find(conflicts, f.path).value)
  {
    assert Covered(items, f.path);
    var i :| 0 <= i < |items| && Text(items[i].path) == f.path;
    assert ItemOk(items[i], conflicts);
    TrimTwice(items[i].path.value);
  }

  /** An entry that answers file `f`. */
  function Answer(f: ConflictFile): Item {
    var reason := Some(REGENERATE);
    if !f.binary then Item(Some(f.path), Some("merge"), reason, Some([0]))
    else if f.ours.Some? then Item(Some(f.path), Some("ours"), reason, None)
    else Item(Some(f.path), Some("theirs"), reason, None)
  }

  lemma WordsStay()
    ensures Trim("merge") == "merge" && Trim("ours") == "ours" && Trim("theirs") == "theirs"
    ensures Trim(REGENERATE) == REGENERATE && Contains(REGENERATE, REGENERATE) && REGENERATE != []
  {
    assert OccursAt(REGENERATE, REGENERATE, 0);
  }

  lemma AnswerIsOk(f: ConflictFile, conflicts: seq<ConflictFile>)
    requires Find(conflicts, f.path) == Some(f) && CanResolve(f.path, f)
    ensures ItemOk(Answer(f), conflicts) && Text(Answer(f).path) == f.path
  {
    WordsStay();
    hide Trim, Contains, Find;
  }

  function Answers(conflicts: seq<ConflictFile>): seq<Item> {
    if conflicts == [] then []
    else
      var last := conflicts[|conflicts| - 1];
      Answers(conflicts[..|conflicts| - 1])
      + if Find(conflicts[..|conflicts| - 1], last.path).None? then [Answer(last)] else []
  }

  lemma {:induction false} FindInPrefix(conflicts: seq<ConflictFile>, k: nat, path: string)
    requires k <= |conflicts|
    ensures Find(conflicts[..k], path).Some? ==> Find(conflicts, path) == Find(conflicts[..k], path)
    ensures k < |conflicts| && Find(conflicts[..k], path).None? && conflicts[k].path == path ==>
      Find(conflicts, path) == Some(conflicts[k])
  {
    if k > 0 {
      assert conflicts[..k][1..] == conflicts[1..][..k - 1];
      FindInPrefix(conflicts[1..], k - 1, path);
    }
  }

  /** Answering each path once, at its first file, is valid as far as it goes. */
  lemma {:induction false} AnswersSoFar(conflicts: seq<ConflictFile>, k: nat)
    requires k <= |conflicts|
    requires forall f :: f in conflicts ==> CanResolve(f.path, Find(conflicts, f.path).value)
    ensures GoodSoFar(Answers(conflicts[..k]), conflicts)
    ensures forall p :: Covered(Answers(conflicts[..k]), p) <==> Find(conflicts[..k], p).Some?
  {
    hide GoodSoFar, Covered, Find, CanResolve, Answer;
    if k == 0 {
      NothingSoFar(conflicts);
    } else {
      AnswersSoFar(conflicts, k - 1);
      var f := conflicts[k - 1];
      assert conflicts[..k][..k - 1] == conflicts[..k - 1];
      FoundSoFar(conflicts, k);
      var before := Answers(conflicts[..k - 1]);
      assert before + [] == before;
      if Find(conflicts[..k - 1], f.path).None? {
        FindInPrefix(conflicts, k - 1, f.path);
        assert f in conflicts;
        AnswerIsOk(f, conflicts);
        OneMore(before, Answer(f), conflicts);
      }
    }
  }

  ghost predicate GoodSoFar(items: seq<Item>, conflicts: seq<ConflictFile>) {
    forall i :: 0 <= i < |items| ==> ItemOk(items[i], conflicts) && !Repeats(items, i)
  }

  lemma NothingSoFar(conflicts: seq<ConflictFile>)
    ensures GoodSoFar(Answers(conflicts[..0]), conflicts)
    ensures forall p :: Covered(Answers(conflicts[..0]), p) <==> Find(conflicts[..0], p).Some?
  {
  }

  lemma FoundSoFar(conflicts: seq<ConflictFile>, k: nat)
    requires 0 < k <= |conflicts|
    ensures forall p :: Find(conflicts[..k], p).Some? <==>
      Find(conflicts[..k - 1], p).Some? || p == conflicts[k - 1].path
  {
    assert conflicts[..k] == conflicts[..k - 1] + [conflicts[k - 1]];
    hide Find;
  }

  lemma OneMore(items: seq<Item>, item: Item, conflicts: seq<ConflictFile>)
    requires GoodSoFar(items, conflicts)
    requires ItemOk(item, conflicts) && !Covered(items, Text(item.path))
    ensures var more := items + [item];
      && GoodSoFar(more, conflicts)
      && (forall p :: Covered(more, p) <==> Covered(items, p) || p == Text(item.path))
  {
    hide ItemOk, Text;
    var more := items + [item];
    forall i | 0 <= i < |items| ensures !Repeats(more, i) {
      assert !Repeats(items, i);
    }
    forall p ensures Covered(more, p) <==> Covered(items, p) || p == Text(item.path) {
      if Covered(items, p) {
        var i :| 0 <= i < |items| && Text(items[i].path) == p;
        assert more[i] == items[i];
      }
      assert more[|items|] == item;
    }
  }

  /** Conflicts can be resolved exactly when each path is nonempty and free of
      outer white space, and each binary file still has one of its sides. */
  lemma ResolvableIff(conflicts: seq<ConflictFile>)
    ensures Resolvable(conflicts) <==> forall f :: f in conflicts ==> CanResolve(f.path, Find(conflicts, f.path).value)
  {
    if Resolvable(conflicts) {
      var items :| Valid(items, conflicts);
      forall f | f in conflicts ensures CanResolve(f.path, Find(conflicts, f.path).value) {
        OnlyTheseResolve(items, conflicts, f);
      }
    }
    if forall f :: f in conflicts ==> CanResolve(f.path, Find(conflicts, f.path).value) {
      AnswersSoFar(conflicts, |conflicts|);
      assert conflicts[..|conflicts|] == conflicts;
      assert Valid(Answers(conflicts), conflicts);
    }
  }
}
