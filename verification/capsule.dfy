/**
 A run capsule: documents that name files relative to the capsule and to the source tree. Before a
 run the names are made absolute; what the run leaves behind is made portable again.
*/
module Capsule {
  import opened Faults

  const SOURCE_TOKEN := "@SOURCE_ROOT@"
  const CAPSULE_TOKEN := "@CAPSULE_ROOT@"
  const CAPSULE_PREFIX := "@CAPSULE_ROOT@/"
  const BASELINE := ".session-reserves-before.json"
  const MAXIMUM_DEPTH := 30

  // A JSON document. Scalars are whatever holds no text.
  datatype Json = Text(text: string) | Scalar(number: int) | List(items: Items) | Record(fields: Fields)
  datatype Items = NoItems | Item(head: Json, tail: Items)
  datatype Fields = NoFields | Field(key: string, value: Json, rest: Fields)

  predicate Contains(s: string, t: string) {
    s != [] && (t <= s || Contains(s[1..], t))
  }

  // ---- Paths ----

  // The parts of a path between its slashes; `part` is the one being read.
  predicate ValidParts(part: string, rest: string)
    decreases |rest|
  {
    if rest == [] then ValidPart(part)
    else if rest[0] == '/' then ValidPart(part) && ValidParts("", rest[1..])
    else ValidParts(part + [rest[0]], rest[1..])
  }

  predicate ValidPart(part: string) {
    part != "" && part != "." && part != ".."
  }

  // `relativePath`. A path that passes is left alone by `join`.
  predicate ValidPath(p: string) {
    0 < |p| <= 1024 && p[0] != '/' && (forall i :: 0 <= i < |p| ==> p[i] !in {'\\', '\0', '\r', '\n'}) &&
      ValidParts("", p)
  }

  function Join(root: string, path: string): string
    requires ValidPath(path)
  {
    root + "/" + path
  }

  predicate Under(path: string, root: string) {
    root + "/" <= path
  }

  // ---- A capsule being run ----

  // `files`: the declared inputs. `run`: the name of the directory made for this run inside the root.
  // `reserves`: the declared input that the environment names as the reserves file.
  datatype Context = Context(root: string, source: string, run: string, files: seq<string>, reserves: Option<string>)

  function RunDirectory(c: Context): string {
    c.root + "/" + c.run
  }

  // Two normalised absolute paths, neither inside the other; the inputs have passed `relativePath`.
  ghost predicate ValidContext(c: Context) {
    && c.root != [] && c.root[0] == '/' && c.source != [] && c.source[0] == '/'
    && c.root != c.source && !Under(c.root, c.source) && !Under(c.source, c.root)
    && (forall f :: f in c.files ==> ValidPath(f))
    && (c.reserves.Some? ==> c.reserves.value in c.files)
  }

  // One of the directories that hold a declared input.
  predicate InputDirectory(c: Context, path: string) {
    exists i :: 0 <= i < |c.files| && Under(c.files[i], path)
  }

  // ---- What is accepted: `collect` ----

  predicate AcceptedText(s: string) {
    && '\0' !in s
    && if CAPSULE_PREFIX <= s then ValidPath(s[|CAPSULE_PREFIX|..])
       else !Contains(s, CAPSULE_TOKEN) && (!Contains(s, SOURCE_TOKEN) || s == SOURCE_TOKEN || Under(s, SOURCE_TOKEN))
  }

  predicate Accepted(v: Json, depth: nat) {
    depth <= MAXIMUM_DEPTH &&
    match v
    case Text(s) => AcceptedText(s)
    case Scalar(_) => true
    case List(items) => AcceptedItems(items, depth + 1)
    case Record(fields) => AcceptedFields(fields, depth + 1)
  }

  predicate AcceptedItems(items: Items, depth: nat) {
    items.NoItems? || (Accepted(items.head, depth) && AcceptedItems(items.tail, depth))
  }

  predicate AcceptedFields(fields: Fields, depth: nat) {
    fields.NoFields? || (Accepted(fields.value, depth) && AcceptedFields(fields.rest, depth))
  }

  // ---- Out: `materialize` ----

  function MaterializeText(c: Context, s: string): Option<string>
    requires AcceptedText(s)
  {
    if s == SOURCE_TOKEN then Some(c.source)
    else if Under(s, SOURCE_TOKEN) then
      var path := s[|SOURCE_TOKEN| + 1..];
      if ValidPath(path) then Some(Join(c.source, path)) else None
    else if CAPSULE_PREFIX <= s then
      var path := s[|CAPSULE_PREFIX|..];
      if path in c.files then Some(Join(RunDirectory(c), path))
      else Some(Join(if InputDirectory(c, path) then RunDirectory(c) else c.root, path))
    else Some(s)
  }

  function Materialize(c: Context, v: Json, depth: nat): Option<Json>
    requires Accepted(v, depth)
  {
    match v
    case Text(s) =>
      (match MaterializeText(c, s)
       case None => None
       case Some(t) => Some(Text(t)))
    case Scalar(_) => Some(v)
    case List(items) =>
      (match MaterializeItems(c, items, depth + 1)
       case None => None
       case Some(r) => Some(List(r)))
    case Record(fields) =>
      (match MaterializeFields(c, fields, depth + 1)
       case None => None
       case Some(r) => Some(Record(r)))
  }

  function MaterializeItems(c: Context, items: Items, depth: nat): Option<Items>
    requires AcceptedItems(items, depth)
  {
    match items
    case NoItems => Some(NoItems)
    case Item(head, tail) =>
      match (Materialize(c, head, depth), MaterializeItems(c, tail, depth))
      case (Some(h), Some(t)) => Some(Item(h, t))
      case _ => None
  }

  function MaterializeFields(c: Context, fields: Fields, depth: nat): Option<Fields>
    requires AcceptedFields(fields, depth)
  {
    match fields
    case NoFields => Some(NoFields)
    case Field(key, value, rest) =>
      match (Materialize(c, value, depth), MaterializeFields(c, rest, depth))
      case (Some(x), Some(r)) => Some(Field(key, x, r))
      case _ => None
  }

  // ---- And back: `portableValue` ----

  // The declared input whose place in the run directory this is.
  function Declared(c: Context, files: seq<string>, value: string): Option<string> {
    if files == [] then None
    else if value == RunDirectory(c) + "/" + files[0] then Some(files[0])
    else Declared(c, files[1..], value)
  }

  // Any text but the reserve baseline.
  function PortableOther(c: Context, value: string): Option<string> {
    if value == c.source then Some(SOURCE_TOKEN)
    else if Under(value, c.source) then Some(SOURCE_TOKEN + "/" + value[|c.source| + 1..])
    else if Declared(c, c.files, value).Some? then Some(CAPSULE_PREFIX + Declared(c, c.files, value).value)
    else if value == RunDirectory(c) || Under(value, RunDirectory(c)) then None
    else if Under(value, c.root) then Some(CAPSULE_PREFIX + value[|c.root| + 1..])
    else Some(value)
  }

  // The reserve baseline stands for the reserves file. Where that is the baseline itself, or where the
  // environment has none, there is no text to return.
  function PortableText(c: Context, value: string): Option<string> {
    if value != RunDirectory(c) + "/" + BASELINE || value == c.source || Under(value, c.source) then
      PortableOther(c, value)
    else if c.reserves.None? || c.reserves.value == BASELINE then None
    else PortableOther(c, RunDirectory(c) + "/" + c.reserves.value)
  }

  function Portable(c: Context, v: Json): Option<Json> {
    match v
    case Text(s) =>
      (match PortableText(c, s)
       case None => None
       case Some(t) => Some(Text(t)))
    case Scalar(_) => Some(v)
    case List(items) =>
      (match PortableItems(c, items)
       case None => None
       case Some(r) => Some(List(r)))
    case Record(fields) =>
      (match PortableFields(c, fields)
       case None => None
       case Some(r) => Some(Record(r)))
  }

  function PortableItems(c: Context, items: Items): Option<Items> {
    match items
    case NoItems => Some(NoItems)
    case Item(head, tail) =>
      match (Portable(c, head), PortableItems(c, tail))
      case (Some(h), Some(t)) => Some(Item(h, t))
      case _ => None
  }

  function PortableFields(c: Context, fields: Fields): Option<Fields> {
    match fields
    case NoFields => Some(NoFields)
    case Field(key, value, rest) =>
      match (Portable(c, value), PortableFields(c, rest))
      case (Some(x), Some(r)) => Some(Field(key, x, r))
      case _ => None
  }

  // ---- When the way back leads to the start ----

  // A reference to a declared input other than the baseline's name, or to something that is neither a
  // directory of inputs nor in the run directory; a reference into the source tree with a proper path;
  // or a text that is not itself a path into either tree.
  ghost predicate Clean(c: Context, s: string) {
    if s == SOURCE_TOKEN then true
    else if Under(s, SOURCE_TOKEN) then ValidPath(s[|SOURCE_TOKEN| + 1..])
    else if CAPSULE_PREFIX <= s then
      var path := s[|CAPSULE_PREFIX|..];
      if path in c.files then path != BASELINE
      else !InputDirectory(c, path) && path != c.run && !Under(path, c.run)
    else s != c.source && !Under(s, c.source) && !Under(s, c.root)
  }

  lemma Cancel(a: string, b: string)
    ensures Under(a + "/" + b, a) && (a + "/" + b)[|a| + 1..] == b
  {
  }

  lemma Uncancel(s: string, a: string)
    requires Under(s, a)
    ensures s == a + "/" + s[|a| + 1..]
  {
  }

  // Of two directories with a path in common one is in the other.
  lemma Comparable(s: string, a: string, b: string)
    requires Under(s, a) && Under(s, b) && |a| <= |b|
    ensures a == b || Under(b, a)
  {
    assert a + "/" == s[..|a| + 1] == (b + "/")[..|a| + 1];
    if |a| < |b| {
      assert (b + "/")[..|a| + 1] == b[..|a| + 1];
    } else {
      assert a == (a + "/")[..|a|] == (b + "/")[..|b|] == b;
    }
  }

  // Nothing is in both trees.
  lemma TreesAreApart(c: Context, s: string)
    requires ValidContext(c) && Under(s, c.root)
    ensures s != c.source && !Under(s, c.source)
  {
    if Under(s, c.source) {
      if |c.root| <= |c.source| { Comparable(s, c.root, c.source); } else { Comparable(s, c.source, c.root); }
    }
  }

  lemma {:induction false} DeclaredIsFound(c: Context, files: seq<string>, path: string)
    ensures Declared(c, files, RunDirectory(c) + "/" + path) == if path in files then Some(path) else None
  {
    if files != [] {
      if RunDirectory(c) + "/" + path == RunDirectory(c) + "/" + files[0] {
        Cancel(RunDirectory(c), path);
        Cancel(RunDirectory(c), files[0]);
      }
      DeclaredIsFound(c, files[1..], path);
    }
  }

  // Only texts in the run directory are places of declared inputs.
  lemma {:induction false} DeclaredIsInRun(c: Context, files: seq<string>, value: string)
    ensures Declared(c, files, value).Some? ==> Under(value, RunDirectory(c))
  {
    if files != [] {
      Cancel(RunDirectory(c), files[0]);
      DeclaredIsInRun(c, files[1..], value);
    }
  }

  lemma InRunIsInRoot(c: Context, value: string)
    ensures value == RunDirectory(c) || Under(value, RunDirectory(c)) ==> Under(value, c.root)
  {
  }

  // What the way back makes of a path in the run directory: the declared input there, or nothing.
  lemma BackFromRun(c: Context, path: string)
    requires ValidContext(c)
    ensures var value := RunDirectory(c) + "/" + path;
      PortableText(c, value) ==
        if path == BASELINE then
          if c.reserves.None? || c.reserves.value == BASELINE then None else Some(CAPSULE_PREFIX + c.reserves.value)
        else if path in c.files then Some(CAPSULE_PREFIX + path) else None
  {
    InRun(c, path);
    if c.reserves.Some? { InRun(c, c.reserves.value); }
    if path != BASELINE && RunDirectory(c) + "/" + path == RunDirectory(c) + "/" + BASELINE {
      Cancel(RunDirectory(c), path);
      Cancel(RunDirectory(c), BASELINE);
    }
  }

  lemma InRun(c: Context, path: string)
    requires ValidContext(c)
    ensures var value := RunDirectory(c) + "/" + path;
      value != c.source && !Under(value, c.source) &&
      PortableOther(c, value) == if path in c.files then Some(CAPSULE_PREFIX + path) else None
  {
    var value := RunDirectory(c) + "/" + path;
    Cancel(RunDirectory(c), path);
    InRunIsInRoot(c, value);
    TreesAreApart(c, value);
    DeclaredIsFound(c, c.files, path);
  }

  // What it makes of a path in the root but not in the run directory.
  lemma BackFromRoot(c: Context, path: string)
    requires ValidContext(c) && path != c.run && !Under(path, c.run)
    ensures PortableText(c, c.root + "/" + path) == Some(CAPSULE_PREFIX + path)
  {
    var value := c.root + "/" + path;
    Cancel(c.root, path);
    TreesAreApart(c, value);
    NotInRun(c, path);
    DeclaredIsInRun(c, c.files, value);
    Cancel(RunDirectory(c), BASELINE);
  }

  lemma NotInRun(c: Context, path: string)
    ensures c.root + "/" + path == RunDirectory(c) <==> path == c.run
    ensures Under(c.root + "/" + path, RunDirectory(c)) <==> Under(path, c.run)
  {
    var value := c.root + "/" + path;
    Cancel(c.root, path);
    Cancel(c.root, c.run);
    assert RunDirectory(c) + "/" == c.root + "/" + (c.run + "/");
    if Under(path, c.run) {
      Uncancel(path, c.run);
      assert value == RunDirectory(c) + "/" + path[|c.run| + 1..];
    }
    if Under(value, RunDirectory(c)) {
      var n := |c.root| + 1;
      assert path == value[n..];
      assert c.run + "/" == (RunDirectory(c) + "/")[n..] == value[..|RunDirectory(c)| + 1][n..];
      assert path[..|c.run| + 1] == c.run + "/";
    }
  }

  // A text comes back exactly if it is clean.
  lemma TextReturns(c: Context, s: string)
    requires ValidContext(c) && AcceptedText(s)
    ensures (MaterializeText(c, s).Some? && PortableText(c, MaterializeText(c, s).value) == Some(s)) <==> Clean(c, s)
  {
    if s == SOURCE_TOKEN {
    } else if Under(s, SOURCE_TOKEN) {
      if ValidPath(s[|SOURCE_TOKEN| + 1..]) { SourceTextReturns(c, s); }
    } else if CAPSULE_PREFIX <= s {
      CapsuleTextReturns(c, s);
    } else {
      OtherTextReturns(c, s);
    }
  }

  lemma SourceTextReturns(c: Context, s: string)
    requires Under(s, SOURCE_TOKEN) && ValidPath(s[|SOURCE_TOKEN| + 1..])
    ensures PortableText(c, Join(c.source, s[|SOURCE_TOKEN| + 1..])) == Some(s)
  {
    Uncancel(s, SOURCE_TOKEN);
    Cancel(c.source, s[|SOURCE_TOKEN| + 1..]);
  }

  lemma CapsuleTextReturns(c: Context, s: string)
    requires ValidContext(c) && AcceptedText(s) && CAPSULE_PREFIX <= s && s != SOURCE_TOKEN && !Under(s, SOURCE_TOKEN)
    ensures PortableText(c, MaterializeText(c, s).value) == Some(s) <==> Clean(c, s)
  {
    var path := s[|CAPSULE_PREFIX|..];
    assert s == CAPSULE_PREFIX + path;
    if path in c.files || InputDirectory(c, path) {
      BackFromRun(c, path);
      PrefixIsInjective(c, path);
    } else if path != c.run && !Under(path, c.run) {
      BackFromRoot(c, path);
    } else {
      BackFromInside(c, path);
    }
  }

  lemma PrefixIsInjective(c: Context, path: string)
    ensures c.reserves.Some? && c.reserves.value != path ==> CAPSULE_PREFIX + c.reserves.value != CAPSULE_PREFIX + path
  {
    if c.reserves.Some? {
      assert (CAPSULE_PREFIX + c.reserves.value)[|CAPSULE_PREFIX|..] == c.reserves.value;
      assert (CAPSULE_PREFIX + path)[|CAPSULE_PREFIX|..] == path;
    }
  }

  // A reference into the run directory, which no input can have meant, does not come back.
  lemma BackFromInside(c: Context, path: string)
    requires ValidContext(c) && path !in c.files && (path == c.run || Under(path, c.run))
    ensures PortableText(c, c.root + "/" + path) != Some(CAPSULE_PREFIX + path)
  {
    var value := c.root + "/" + path;
    if path == c.run {
      Cancel(c.root, path);
      TreesAreApart(c, value);
      DeclaredIsInRun(c, c.files, value);
      assert value == RunDirectory(c) && |value| < |RunDirectory(c) + "/" + BASELINE|;
    } else {
      var inner := path[|c.run| + 1..];
      Uncancel(path, c.run);
      assert value == RunDirectory(c) + "/" + inner;
      BackFromRun(c, inner);
      PrefixIsInjective(c, path);
      assert |inner| < |path|;
      assert |CAPSULE_PREFIX + inner| < |CAPSULE_PREFIX + path|;
    }
  }

  lemma OtherTextReturns(c: Context, s: string)
    requires ValidContext(c) && !(CAPSULE_PREFIX <= s) && s != SOURCE_TOKEN && !Under(s, SOURCE_TOKEN)
    ensures PortableText(c, s) == Some(s) <==> s != c.source && !Under(s, c.source) && !Under(s, c.root)
  {
    InRunIsInRoot(c, s);
    DeclaredIsInRun(c, c.files, s);
    Cancel(RunDirectory(c), BASELINE);
    if s == RunDirectory(c) + "/" + BASELINE { BackFromRun(c, BASELINE); }
  }

  // ---- Documents ----

  ghost predicate CleanDocument(c: Context, v: Json) {
    match v
    case Text(s) => Clean(c, s)
    case Scalar(_) => true
    case List(items) => CleanItems(c, items)
    case Record(fields) => CleanFields(c, fields)
  }

  ghost predicate CleanItems(c: Context, items: Items) {
    items.NoItems? || (CleanDocument(c, items.head) && CleanItems(c, items.tail))
  }

  ghost predicate CleanFields(c: Context, fields: Fields) {
    fields.NoFields? || (CleanDocument(c, fields.value) && CleanFields(c, fields.rest))
  }

  // A document made absolute and made portable again is the same document exactly if all its texts are clean.
  lemma {:induction false} DocumentReturns(c: Context, v: Json, depth: nat)
    requires ValidContext(c) && Accepted(v, depth)
    ensures (Materialize(c, v, depth).Some? && Portable(c, Materialize(c, v, depth).value) == Some(v)) <==>
      CleanDocument(c, v)
  {
    match v
    case Text(s) => TextReturns(c, s);
    case Scalar(_) =>
    case List(items) => ItemsReturn(c, items, depth + 1);
    case Record(fields) => FieldsReturn(c, fields, depth + 1);
  }

  lemma {:induction false} ItemsReturn(c: Context, items: Items, depth: nat)
    requires ValidContext(c) && AcceptedItems(items, depth)
    ensures (MaterializeItems(c, items, depth).Some? &&
             PortableItems(c, MaterializeItems(c, items, depth).value) == Some(items)) <==>
            CleanItems(c, items)
  {
    if items.Item? {
      DocumentReturns(c, items.head, depth);
      ItemsReturn(c, items.tail, depth);
    }
  }

  lemma {:induction false} FieldsReturn(c: Context, fields: Fields, depth: nat)
    requires ValidContext(c) && AcceptedFields(fields, depth)
    ensures (MaterializeFields(c, fields, depth).Some? &&
             PortableFields(c, MaterializeFields(c, fields, depth).value) == Some(fields)) <==>
            CleanFields(c, fields)
  {
    if fields.Field? {
      DocumentReturns(c, fields.value, depth);
      FieldsReturn(c, fields.rest, depth);
    }
  }

  // A text in the run directory that is neither a declared input nor the baseline is refused.
  lemma UndeclaredPathIsRefused(c: Context, value: string)
    requires ValidContext(c) && (value == RunDirectory(c) || Under(value, RunDirectory(c)))
    requires value != RunDirectory(c) + "/" + BASELINE
    requires forall f :: f in c.files ==> value != RunDirectory(c) + "/" + f
    ensures PortableText(c, value) == None
  {
    InRunIsInRoot(c, value);
    TreesAreApart(c, value);
    if value == RunDirectory(c) {
      DeclaredIsInRun(c, c.files, value);
    } else {
      Uncancel(value, RunDirectory(c));
      DeclaredIsFound(c, c.files, value[|RunDirectory(c)| + 1..]);
    }
  }

  // A reference to a declared input comes back unless the input has the name of the baseline.
  lemma DeclaredInputReturns(c: Context, path: string)
    requires ValidContext(c) && path in c.files
    ensures PortableText(c, Join(RunDirectory(c), path)) == Some(CAPSULE_PREFIX + path) <==> path != BASELINE
  {
    BackFromRun(c, path);
    PrefixIsInjective(c, path);
  }
}
