/**
 * FOX (Features, Options and eXperiences): a tree of feature nodes, each
 * holding an experience descriptor, an options dictionary and named child
 * features, parsed from raw data with shorthand forms, defaulting and
 * normalisation, and looked up by path with a default for every missing
 * feature.
 */
module Fox {
  import opened RawData

  /** Which experiences of a feature exist, which one is active (`None` is
      `null`) and which one the user is prompted with (`None` is
      `undefined`). The prompt is the raw value: the source only casts it. */
  datatype Experience = Experience(available: seq<string>, active: Option<string>, prompt: Option<Json>)

  /** A feature node: its experience descriptor, its options dictionary (the
      raw value, passed through) and its child features by name. */
  datatype FeatureNode = FeatureNode(xp: Experience, options: Json, children: map<string, FeatureNode>)

  /** The errors the parser throws: its two structural errors, and the
      TypeError raised when an experience object's own `hasOwnProperty` entry
      hides the method the parser calls. */
  datatype FoxError =
    | InvalidExperience         // "experience structure ('xp') was not in a valid format"
    | NotAnObject               // "input data was not an object"
    | HasOwnPropertyNotFunction // TypeError: xpData.hasOwnProperty is not a function

  datatype Result<T> = Ok(value: T) | Err(error: FoxError)

  const DefaultExperienceName: string := "default"

  /** What a normalised experience descriptor satisfies: `active` is `null`
      exactly when nothing is available and is otherwise one of the available
      experiences; a truthy prompt is one of the available experiences. */
  predicate ExperienceInvariant(xp: Experience) {
    && (xp.active.None? <==> xp.available == [])
    && (xp.active.Some? ==> xp.active.value in xp.available)
    && (xp.prompt.Some? && Truthy(xp.prompt.value) ==>
          xp.prompt.value.JStr? && xp.prompt.value.s in xp.available)
  }

  /** An options dictionary as `interpretOptions` leaves it: some non-null object. */
  predicate OptionsShape(options: Json) {
    options.JObj? || options.JArr?
  }

  /** The invariant of every node the parser builds, through the whole tree:
      normalised experiences, object-valued options, and no child that shadows
      the `xp` or `options` key. */
  predicate Normalised(node: FeatureNode)
    decreases node
  {
    && ExperienceInvariant(node.xp)
    && OptionsShape(node.options)
    && "xp" !in node.children
    && "options" !in node.children
    && forall k | k in node.children :: Normalised(node.children[k])
  }

  /** `emptyFeatureNode`: the default experience, no options, no children. */
  function EmptyFeatureNode(): (node: FeatureNode)
    ensures Normalised(node)
    ensures node.children == map[] && node.xp.prompt.None?
  {
    FeatureNode(Experience([DefaultExperienceName], Some(DefaultExperienceName), None), JObj([]), map[])
  }

  // ---------------------------------------------------------------------
  // Experience descriptors
  // ---------------------------------------------------------------------

  /** What the source's casts take for granted of an experience object: an
      `available` entry, when present, is an array of strings. */
  predicate ExperienceDataTyped(xpData: Json) {
    xpData.JObj? ==>
      match Get(xpData.entries, "available")
      case None => true
      case Some(a) => IsStringArray(a)
  }

  /** The `available` list of an experience object; `[]` when absent. */
  function AvailableOf(entries: seq<(string, Json)>): (available: seq<string>)
    requires ExperienceDataTyped(JObj(entries))
    ensures Get(entries, "available").None? ==> available == []
    ensures Get(entries, "available").Some? ==>
              |available| == |Get(entries, "available").value.items| &&
              forall i | 0 <= i < |available| :: Get(entries, "available").value.items[i] == JStr(available[i])
  {
    match Get(entries, "available")
    case None => []
    case Some(a) => Strings(a)
  }

  /** The `active` entry when it is a string; anything else (absent, `null`,
      another type) can never be found in `available`. */
  function GivenActive(entries: seq<(string, Json)>): Option<string> {
    match Get(entries, "active")
    case Some(JStr(a)) => Some(a)
    case _ => None
  }

  /** The active experience: the given one when it is available, otherwise the
      first available one, otherwise `null`. */
  function ChooseActive(available: seq<string>, given: Option<string>): (active: Option<string>)
    ensures active.None? <==> available == []
    ensures active.Some? ==> active.value in available
    ensures given.Some? && given.value in available ==> active == given
    ensures given.None? || given.value !in available ==>
              active == (if available == [] then None else Some(available[0]))
  {
    if given.Some? && given.value in available then given
    else if |available| > 0 then Some(available[0])
    else None
  }

  /** A truthy prompt that is not an available experience is dropped. */
  function FilterPrompt(available: seq<string>, prompt: Option<Json>): (r: Option<Json>)
    ensures r.Some? ==> r == prompt
    ensures r.Some? && Truthy(r.value) ==> r.value.JStr? && r.value.s in available
    ensures prompt.Some? && (!Truthy(prompt.value) || (prompt.value.JStr? && prompt.value.s in available)) ==>
              r == prompt
  {
    match prompt
    case None => None
    case Some(p) => if Truthy(p) && !(p.JStr? && p.s in available) then None else prompt
  }

  /** `interpretExperience`: a string names the one available and active
      experience, a boolean stands for the default experience, an object is
      normalised, and anything else is an error. An object with its own
      `hasOwnProperty` entry (never a function in JSON data) makes the call
      `xpData.hasOwnProperty(...)` throw a TypeError. */
  function InterpretExperience(xpData: Json): (r: Result<Experience>)
    requires ExperienceDataTyped(xpData)
    ensures r.Ok? <==>
              xpData.JStr? || xpData.JBool? || (xpData.JObj? && Get(xpData.entries, "hasOwnProperty").None?)
    ensures r.Err? ==> r.error == if xpData.JObj? then HasOwnPropertyNotFunction else InvalidExperience
    ensures r.Ok? ==> ExperienceInvariant(r.value)
  {
    match xpData
    case JStr(s) => Ok(Experience([s], Some(s), None))
    case JBool(_) => Ok(Experience([DefaultExperienceName], Some(DefaultExperienceName), None))
    case JObj(entries) =>
      if Get(entries, "hasOwnProperty").Some? then Err(HasOwnPropertyNotFunction) else
      var available := AvailableOf(entries);
      Ok(Experience(available, ChooseActive(available, GivenActive(entries)),
                    FilterPrompt(available, Get(entries, "prompt"))))
    case _ => Err(InvalidExperience)
  }

  // ---------------------------------------------------------------------
  // Options
  // ---------------------------------------------------------------------

  /** `interpretOptions`: any non-null object (arrays included) is kept as it
      is; anything else becomes `{}`. */
  function InterpretOptions(optionsData: Json): (options: Json)
    ensures OptionsShape(options)
    ensures IsObjectLike(optionsData) && !optionsData.JNull? <==> options == optionsData
    ensures options != optionsData ==> options == JObj([])
  {
    if IsObjectLike(optionsData) && !optionsData.JNull? then optionsData else JObj([])
  }

  // ---------------------------------------------------------------------
  // Feature nodes: the parser as a specification
  // ---------------------------------------------------------------------

  /** What the source's casts take for granted of feature data: every `xp`
      entry anywhere in the tree satisfies ExperienceDataTyped. */
  predicate FeatureDataTyped(data: Json)
    decreases data, 1
  {
    match data
    case JObj(entries) => forall i | 0 <= i < |entries| :: EntryTyped(entries[i].0, entries[i].1)
    case _ => true
  }

  predicate EntryTyped(key: string, value: Json)
    decreases value, 2
  {
    if key == "xp" then ExperienceDataTyped(value)
    else if key == "options" then true
    else FeatureDataTyped(value)
  }

  /** Which raw feature data parses, stated independently of the parser:
      strings and booleans, and objects whose `xp` entries are strings,
      booleans or objects and whose child entries parse in turn. */
  predicate Parsable(data: Json)
    decreases data, 1
  {
    match data
    case JStr(_) => true
    case JBool(_) => true
    case JObj(entries) => forall i | 0 <= i < |entries| :: EntryParsable(entries[i].0, entries[i].1)
    case _ => false
  }

  predicate EntryParsable(key: string, value: Json)
    decreases value, 2
  {
    if key == "xp" then value.JStr? || value.JBool? || (value.JObj? && Get(value.entries, "hasOwnProperty").None?)
    else if key == "options" then true
    else Parsable(value)
  }

  /** The node `interpretFeatureNode(node, data)` leaves behind, or the error
      it throws. Strings and booleans replace only the experience; an object's
      entries are applied in order. */
  function ParseInto(node: FeatureNode, data: Json): (r: Result<FeatureNode>)
    requires FeatureDataTyped(data)
    ensures r.Ok? <==> Parsable(data)
    ensures r.Ok? && Normalised(node) ==> Normalised(r.value)
    decreases data, 1
  {
    if data.JStr? || data.JBool? then Ok(node.(xp := InterpretExperience(data).value))
    else if !data.JObj? then Err(NotAnObject)
    else ApplyEntries(node, data, |data.entries|)
  }

  /** The node after the first `n` entries of the object `data`, stopping at
      the first error. */
  function ApplyEntries(node: FeatureNode, data: Json, n: nat): (r: Result<FeatureNode>)
    requires data.JObj? && n <= |data.entries| && FeatureDataTyped(data)
    ensures r.Ok? <==> forall i | 0 <= i < n :: EntryParsable(data.entries[i].0, data.entries[i].1)
    ensures r.Ok? && Normalised(node) ==> Normalised(r.value)
    decreases data, 0, n
  {
    if n == 0 then Ok(node)
    else
      match ApplyEntries(node, data, n - 1)
      case Err(e) => Err(e)
      case Ok(prev) => ApplyEntry(prev, data.entries[n - 1].0, data.entries[n - 1].1)
  }

  /** One entry of an object: `xp` sets the experience, `options` the options,
      and any other key becomes a child parsed from a fresh empty node. */
  function ApplyEntry(node: FeatureNode, key: string, value: Json): (r: Result<FeatureNode>)
    requires EntryTyped(key, value)
    ensures r.Ok? <==> EntryParsable(key, value)
    ensures r.Ok? && Normalised(node) ==> Normalised(r.value)
    decreases value, 2
  {
    if key == "xp" then
      match InterpretExperience(value)
      case Ok(xp) => Ok(node.(xp := xp))
      case Err(e) => Err(e)
    else if key == "options" then Ok(node.(options := InterpretOptions(value)))
    else
      match ParseInto(EmptyFeatureNode(), value)
      case Ok(child) => Ok(node.(children := node.children[key := child]))
      case Err(e) => Err(e)
  }

  /** Once an entry fails, later entries are never reached and the error stands. */
  lemma {:induction false} ErrorStands(node: FeatureNode, data: Json, i: nat, n: nat)
    requires data.JObj? && i <= n <= |data.entries| && FeatureDataTyped(data)
    requires ApplyEntries(node, data, i).Err?
    ensures ApplyEntries(node, data, n) == ApplyEntries(node, data, i)
    decreases n - i
  {
    if i < n {
      ErrorStands(node, data, i, n - 1);
    }
  }

  // ---------------------------------------------------------------------
  // Feature nodes updated in place
  // ---------------------------------------------------------------------

  /** A feature node object whose fields the parser assigns. Its children
      are values: each child is a fresh node owned by its parent alone. */
  class NodeCell {
    var xp: Experience
    var options: Json
    var children: map<string, FeatureNode>

    function Value(): FeatureNode
      reads this
    {
      FeatureNode(xp, options, children)
    }

    /** A fresh `emptyFeatureNode()`. */
    constructor Empty()
      ensures Value() == EmptyFeatureNode()
    {
      xp := EmptyFeatureNode().xp;
      options := EmptyFeatureNode().options;
      children := map[];
    }
  }

  /** `interpretFeatureNode`: updates `node` from `data` in place, entry by
      entry, and reports the error it would throw. */
  method InterpretFeatureNode(node: NodeCell, data: Json) returns (err: Option<FoxError>)
    requires FeatureDataTyped(data)
    modifies node
    ensures err.None? <==> ParseInto(old(node.Value()), data).Ok?
    ensures err.None? ==> node.Value() == ParseInto(old(node.Value()), data).value
    ensures err.Some? ==> ParseInto(old(node.Value()), data) == Err(err.value)
    decreases data
  {
    if data.JStr? || data.JBool? {
      var xp := InterpretExperience(data);
      node.xp := xp.value;
      return None;
    }
    if !data.JObj? {
      return Some(NotAnObject);
    }
    ghost var start := node.Value();
    var i := 0;
    while i < |data.entries|
      invariant 0 <= i <= |data.entries|
      invariant ApplyEntries(start, data, i) == Ok(node.Value())
    {
      var key, value := data.entries[i].0, data.entries[i].1;
      assert EntryTyped(key, value);
      if key == "xp" {
        var xp := InterpretExperience(value);
        if xp.Err? {
          ErrorStands(start, data, i + 1, |data.entries|);
          return Some(xp.error);
        }
        node.xp := xp.value;
      } else if key == "options" {
        node.options := InterpretOptions(value);
      } else {
        var child := new NodeCell.Empty();
        var childErr := InterpretFeatureNode(child, value);
        if childErr.Some? {
          ErrorStands(start, data, i + 1, |data.entries|);
          return childErr;
        }
        node.children := node.children[key := child.Value()];
      }
      i := i + 1;
    }
    return None;
  }

  // ---------------------------------------------------------------------
  // Path lookup
  // ---------------------------------------------------------------------

  /** The node reached by following `path` through child features, or `None`
      (`undefined`) as soon as a segment is missing. */
  function Walk(node: FeatureNode, path: seq<string>): (r: Option<FeatureNode>)
    ensures path == [] ==> r == Some(node)
    ensures path != [] && path[0] !in node.children ==> r.None?
    ensures r.Some? && Normalised(node) ==> Normalised(r.value)
    decreases |path|
  {
    if path == [] then Some(node)
    else if path[0] in node.children then Walk(node.children[path[0]], path[1..])
    else None
  }

  /** `AlFoxSnapshot`: the parsed root of a FOX tree and its path accessors. */
  class FoxSnapshot {
    var root: NodeCell

    /** The root starts as a fresh `emptyFeatureNode()`. */
    constructor ()
      ensures fresh(root) && Root() == EmptyFeatureNode()
    {
      root := new NodeCell.Empty();
    }

    /** The snapshot's invariant: the tree under the root is normalised. */
    predicate Valid()
      reads this, root
    {
      Normalised(root.Value())
    }

    /** `getRoot`, as a value. */
    function Root(): (node: FeatureNode)
      reads this, root
      ensures Valid() <==> Normalised(node)
    {
      root.Value()
    }

    /** The source's constructor: falsy data leaves the root empty, other data
        is parsed into the root, and a structural error is thrown. */
    static method Create(rawData: Json) returns (r: Result<FoxSnapshot>)
      requires FeatureDataTyped(rawData)
      ensures r.Ok? ==> fresh(r.value) && fresh(r.value.root) && r.value.Valid()
      ensures !Truthy(rawData) ==> r.Ok? && r.value.Root() == EmptyFeatureNode()
      ensures Truthy(rawData) ==> (r.Ok? <==> Parsable(rawData))
      ensures Truthy(rawData) && r.Ok? ==> r.value.Root() == ParseInto(EmptyFeatureNode(), rawData).value
      ensures r.Err? ==> ParseInto(EmptyFeatureNode(), rawData) == Err(r.error)
    {
      var snapshot := new FoxSnapshot();
      if Truthy(rawData) {
        var err := InterpretFeatureNode(snapshot.root, rawData);
        if err.Some? {
          return Err(err.value);
        }
      }
      return Ok(snapshot);
    }

    /** `getFeature`: the node at `path`, or a fresh default node when the
        path leads nowhere; never undefined. */
    function GetFeature(path: seq<string>): (node: FeatureNode)
      reads this, root
      ensures Walk(Root(), path).None? ==> node == EmptyFeatureNode()
      ensures Walk(Root(), path).Some? ==> Some(node) == Walk(Root(), path)
      ensures Valid() ==> Normalised(node)
    {
      match Walk(Root(), path)
      case Some(found) => found
      case None => EmptyFeatureNode()
    }

    /** `getFeatureExperience`: the experience of the feature at `path`. */
    function GetFeatureExperience(path: seq<string>): (xp: Experience)
      reads this, root
      ensures xp == GetFeature(path).xp
      ensures Valid() ==> ExperienceInvariant(xp)
    {
      GetFeature(path).xp
    }

    /** `getFeatureOptions`: the options of the feature at `path`. */
    function GetFeatureOptions(path: seq<string>): (options: Json)
      reads this, root
      ensures options == GetFeature(path).options
      ensures Valid() ==> OptionsShape(options)
    {
      GetFeature(path).options
    }
  }
}
