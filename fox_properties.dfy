/**
 * What the FOX parser and its path lookup promise, stated over the
 * specification functions of module Fox.
 */
module FoxProperties {
  import opened RawData
  import opened Fox

  // ---------------------------------------------------------------------
  // Experience descriptors
  // ---------------------------------------------------------------------

  /** A string `s` is shorthand for the single experience `s`, active, with no prompt. */
  lemma StringShorthand(s: string)
    ensures InterpretExperience(JStr(s)) == Ok(Experience([s], Some(s), None))
  {
  }

  /** Either boolean is shorthand for the default experience. */
  lemma BooleanShorthand(b: bool)
    ensures InterpretExperience(JBool(b)) == Ok(EmptyFeatureNode().xp)
  {
  }

  /** Arrays, `null` and numbers are not experience descriptors. */
  lemma ExperienceRejects(xpData: Json)
    requires xpData.JArr? || xpData.JNull? || xpData.JNum?
    ensures InterpretExperience(xpData) == Err(InvalidExperience)
  {
  }

  /** `available` is taken as given (`[]` when absent); a given `active` that
      is available is kept, and a missing, `null`, non-string or unavailable
      one becomes the first available experience, or `null` when there is none. */
  lemma ActiveDefaulting(entries: seq<(string, Json)>)
    requires ExperienceDataTyped(JObj(entries)) && Get(entries, "hasOwnProperty").None?
    ensures var xp := InterpretExperience(JObj(entries)).value;
            var available := AvailableOf(entries);
            && xp.available == available
            && (match Get(entries, "active")
                case Some(JStr(a)) =>
                  if a in available then xp.active == Some(a)
                  else xp.active == (if available == [] then None else Some(available[0]))
                case _ =>
                  xp.active == (if available == [] then None else Some(available[0])))
  {
  }

  /** A prompt is kept exactly when it is present and either falsy or an
      available experience; a kept prompt is the given value. */
  lemma PromptFiltering(entries: seq<(string, Json)>)
    requires ExperienceDataTyped(JObj(entries)) && Get(entries, "hasOwnProperty").None?
    ensures var xp := InterpretExperience(JObj(entries)).value;
            && (xp.prompt.Some? <==>
                  Get(entries, "prompt").Some? &&
                  (!Truthy(Get(entries, "prompt").value) ||
                   (Get(entries, "prompt").value.JStr? && Get(entries, "prompt").value.s in xp.available)))
            && (xp.prompt.Some? ==> xp.prompt == Get(entries, "prompt"))
  {
  }

  /** The empty string passes the truthiness test, so an unavailable empty
      prompt is kept: the invariant "a prompt is available" holds only of
      truthy prompts. */
  lemma EmptyPromptKept()
    ensures InterpretExperience(JObj([("prompt", JStr(""))])) == Ok(Experience([], None, Some(JStr(""))))
  {
  }

  /** Keys other than `available`, `active`, `prompt` and `hasOwnProperty`
      are not copied: inserting one anywhere in an experience object changes
      nothing. */
  lemma ExtraKeysIgnored(front: seq<(string, Json)>, key: string, value: Json, back: seq<(string, Json)>)
    requires key != "available" && key != "active" && key != "prompt" && key != "hasOwnProperty"
    requires ExperienceDataTyped(JObj(front + back))
    ensures ExperienceDataTyped(JObj(front + [(key, value)] + back))
    ensures InterpretExperience(JObj(front + [(key, value)] + back)) == InterpretExperience(JObj(front + back))
  {
    GetSkipsOtherKey(front, key, value, back, "available");
    GetSkipsOtherKey(front, key, value, back, "active");
    GetSkipsOtherKey(front, key, value, back, "prompt");
    GetSkipsOtherKey(front, key, value, back, "hasOwnProperty");
  }

  /** An own `hasOwnProperty` entry, wherever it stands and whatever its
      value, hides the method the parser calls, so the call throws. */
  lemma ShadowedHasOwnPropertyThrows(front: seq<(string, Json)>, value: Json, back: seq<(string, Json)>)
    requires ExperienceDataTyped(JObj(front + [("hasOwnProperty", value)] + back))
    ensures InterpretExperience(JObj(front + [("hasOwnProperty", value)] + back)) == Err(HasOwnPropertyNotFunction)
  {
    var entries := front + [("hasOwnProperty", value)] + back;
    assert entries[|front|].0 == "hasOwnProperty";
  }

  // ---------------------------------------------------------------------
  // Feature nodes
  // ---------------------------------------------------------------------

  /** A string or boolean replaces only the experience of the node. */
  lemma ShorthandKeepsRest(node: FeatureNode, data: Json)
    requires data.JStr? || data.JBool?
    ensures ParseInto(node, data).Ok?
    ensures ParseInto(node, data).value.options == node.options
    ensures ParseInto(node, data).value.children == node.children
    ensures ParseInto(node, data).value.xp ==
              if data.JStr? then Experience([data.s], Some(data.s), None) else EmptyFeatureNode().xp
  {
  }

  /** Arrays, `null` and numbers are not feature data. */
  lemma FeatureRejects(node: FeatureNode, data: Json)
    requires data.JArr? || data.JNull? || data.JNum?
    ensures ParseInto(node, data) == Err(NotAnObject)
  {
  }

  /** The keys of an object's entries that name child features. */
  function ChildKeys(entries: seq<(string, Json)>): set<string> {
    set i | 0 <= i < |entries| && entries[i].0 != "xp" && entries[i].0 != "options" :: entries[i].0
  }

  /** What applying entries changes: the children gain exactly the child keys,
      an old child no entry names keeps its value, and the experience and
      options change only under an `xp` or `options` key. */
  lemma {:induction false} ApplyEntriesFrame(node: FeatureNode, data: Json, n: nat)
    requires data.JObj? && n <= |data.entries| && FeatureDataTyped(data)
    requires ApplyEntries(node, data, n).Ok?
    ensures ApplyEntries(node, data, n).value.children.Keys == node.children.Keys + ChildKeys(data.entries[..n])
    ensures (forall i | 0 <= i < n :: data.entries[i].0 != "xp") ==> ApplyEntries(node, data, n).value.xp == node.xp
    ensures (forall i | 0 <= i < n :: data.entries[i].0 != "options") ==> ApplyEntries(node, data, n).value.options == node.options
    ensures forall k | k in node.children && (forall i | 0 <= i < n :: data.entries[i].0 != k) ::
              k in ApplyEntries(node, data, n).value.children &&
              ApplyEntries(node, data, n).value.children[k] == node.children[k]
  {
    if n > 0 {
      ApplyEntriesFrame(node, data, n - 1);
      var key := data.entries[n - 1].0;
      var before := data.entries[..n - 1];
      assert data.entries[..n] == before + [data.entries[n - 1]];
      if key == "xp" || key == "options" {
        assert ChildKeys(data.entries[..n]) == ChildKeys(before) by {
          forall k | k in ChildKeys(data.entries[..n]) ensures k in ChildKeys(before) {
            var i :| 0 <= i < n && data.entries[..n][i].0 == k && k != "xp" && k != "options";
            assert before[i].0 == k;
          }
        }
      } else {
        assert ChildKeys(data.entries[..n]) == ChildKeys(before) + {key} by {
          forall k | k in ChildKeys(data.entries[..n]) ensures k in ChildKeys(before) + {key} {
            var i :| 0 <= i < n && data.entries[..n][i].0 == k && k != "xp" && k != "options";
            if i < n - 1 { assert before[i].0 == k; }
          }
          assert data.entries[..n][n - 1].0 == key;
          forall k | k in ChildKeys(before) ensures k in ChildKeys(data.entries[..n]) {
            var i :| 0 <= i < n - 1 && before[i].0 == k && k != "xp" && k != "options";
            assert data.entries[..n][i].0 == k;
          }
        }
      }
    }
  }

  /** Parsing an object: the children are the old ones plus one per child
      key, an old child the object does not name is kept as it was, and
      experience and options change only when the object has such an entry. */
  lemma ParseObjectFrame(node: FeatureNode, data: Json)
    requires data.JObj? && FeatureDataTyped(data) && ParseInto(node, data).Ok?
    ensures ParseInto(node, data).value.children.Keys == node.children.Keys + ChildKeys(data.entries)
    ensures (forall i | 0 <= i < |data.entries| :: data.entries[i].0 != "xp") ==> ParseInto(node, data).value.xp == node.xp
    ensures (forall i | 0 <= i < |data.entries| :: data.entries[i].0 != "options") ==> ParseInto(node, data).value.options == node.options
    ensures forall k | k in node.children && (forall i | 0 <= i < |data.entries| :: data.entries[i].0 != k) ::
              k in ParseInto(node, data).value.children &&
              ParseInto(node, data).value.children[k] == node.children[k]
  {
    ApplyEntriesFrame(node, data, |data.entries|);
    assert data.entries[..|data.entries|] == data.entries;
  }

  /** The last entry under a key decides that key: `xp` gives the experience,
      `options` the options, and any other key a child parsed from the empty node. */
  lemma {:induction false} LastEntryDecides(node: FeatureNode, data: Json, n: nat, i: nat)
    requires data.JObj? && i < n <= |data.entries| && FeatureDataTyped(data)
    requires ApplyEntries(node, data, n).Ok?
    requires forall j | i < j < n :: data.entries[j].0 != data.entries[i].0
    ensures EntryTyped(data.entries[i].0, data.entries[i].1)
    ensures var m := ApplyEntries(node, data, n).value;
            var (key, value) := data.entries[i];
            && (key == "xp" ==> Ok(m.xp) == InterpretExperience(value))
            && (key == "options" ==> m.options == InterpretOptions(value))
            && (key != "xp" && key != "options" ==>
                  key in m.children && Ok(m.children[key]) == ParseInto(EmptyFeatureNode(), value))
  {
    assert EntryTyped(data.entries[i].0, data.entries[i].1);
    if i < n - 1 {
      LastEntryDecides(node, data, n - 1, i);
    }
  }

  /** After parsing an object, the feature reached by a child key is that
      key's last value parsed from the empty node. */
  lemma ParsedChildFound(node: FeatureNode, data: Json, i: nat)
    requires data.JObj? && i < |data.entries| && FeatureDataTyped(data)
    requires ParseInto(node, data).Ok?
    requires data.entries[i].0 != "xp" && data.entries[i].0 != "options"
    requires forall j | i < j < |data.entries| :: data.entries[j].0 != data.entries[i].0
    ensures FeatureDataTyped(data.entries[i].1)
    ensures Walk(ParseInto(node, data).value, [data.entries[i].0]) == Some(ParseInto(EmptyFeatureNode(), data.entries[i].1).value)
  {
    LastEntryDecides(node, data, |data.entries|, i);
  }

  /** `{child: ["not an object"]}` is rejected. */
  lemma RejectsArrayFeature()
    ensures ParseInto(EmptyFeatureNode(), JObj([("child", JArr([JStr("not an object")]))])) == Err(NotAnObject)
  {
  }

  /** `{child: {xp: ["not an object or a string or a boolean"]}}` is rejected. */
  lemma RejectsArrayExperience()
    ensures ParseInto(EmptyFeatureNode(), JObj([("child", JObj([("xp", JArr([JStr("not valid")]))]))])) == Err(InvalidExperience)
  {
    var child := JObj([("xp", JArr([JStr("not valid")]))]);
    assert ApplyEntries(EmptyFeatureNode(), child, 0) == Ok(EmptyFeatureNode());
    assert ParseInto(EmptyFeatureNode(), child) == Err(InvalidExperience);
  }

  /** `{child: {xp: {hasOwnProperty: 1}}}` is rejected with the TypeError. */
  lemma RejectsShadowedHasOwnProperty()
    ensures ParseInto(EmptyFeatureNode(), JObj([("child", JObj([("xp", JObj([("hasOwnProperty", JNum(1.0))]))]))]))
              == Err(HasOwnPropertyNotFunction)
  {
    var child := JObj([("xp", JObj([("hasOwnProperty", JNum(1.0))]))]);
    assert ApplyEntries(EmptyFeatureNode(), child, 0) == Ok(EmptyFeatureNode());
    assert ParseInto(EmptyFeatureNode(), child) == Err(HasOwnPropertyNotFunction);
  }

  /** The shorthand forms side by side: `true`, `"override"`, and an object
      whose `xp` is a string and whose options are passed through. */
  lemma ShorthandFormsExample()
    ensures var options := JObj([("something", JBool(true)), ("untruthful", JBool(false))]);
            var data := JObj([("feature1", JBool(true)), ("feature2", JStr("override")),
                              ("feature3", JObj([("options", options), ("xp", JStr("my-experience"))]))]);
            && FeatureDataTyped(data)
            && ParseInto(EmptyFeatureNode(), data).Ok?
            && Walk(ParseInto(EmptyFeatureNode(), data).value, ["feature1"])
                 == Some(FeatureNode(Experience(["default"], Some("default"), None), JObj([]), map[]))
            && Walk(ParseInto(EmptyFeatureNode(), data).value, ["feature2"])
                 == Some(FeatureNode(Experience(["override"], Some("override"), None), JObj([]), map[]))
            && Walk(ParseInto(EmptyFeatureNode(), data).value, ["feature3"])
                 == Some(FeatureNode(Experience(["my-experience"], Some("my-experience"), None), options, map[]))
  {
    var options := JObj([("something", JBool(true)), ("untruthful", JBool(false))]);
    var feature3 := JObj([("options", options), ("xp", JStr("my-experience"))]);
    var data := JObj([("feature1", JBool(true)), ("feature2", JStr("override")), ("feature3", feature3)]);
    assert EntryTyped("options", options) && EntryTyped("xp", JStr("my-experience"));
    assert FeatureDataTyped(feature3);
    assert EntryTyped("feature1", JBool(true)) && EntryTyped("feature2", JStr("override"));
    assert FeatureDataTyped(data);
    assert EntryParsable("options", options) && EntryParsable("xp", JStr("my-experience"));
    assert Parsable(feature3);
    assert Parsable(data);
    ParsedChildFound(EmptyFeatureNode(), data, 0);
    ParsedChildFound(EmptyFeatureNode(), data, 1);
    ParsedChildFound(EmptyFeatureNode(), data, 2);
    LastEntryDecides(EmptyFeatureNode(), feature3, 2, 0);
    LastEntryDecides(EmptyFeatureNode(), feature3, 2, 1);
    ParseObjectFrame(EmptyFeatureNode(), feature3);
  }

  // ---------------------------------------------------------------------
  // Path lookup
  // ---------------------------------------------------------------------

  /** Looking up `p + q` is looking up `p`, then `q` from there. */
  lemma {:induction false} WalkAppend(node: FeatureNode, p: seq<string>, q: seq<string>)
    ensures Walk(node, p + q) == match Walk(node, p) case None => None case Some(m) => Walk(m, q)
    decreases |p|
  {
    if p == [] {
      assert p + q == q;
    } else {
      assert (p + q)[0] == p[0] && (p + q)[1..] == p[1..] + q;
      if p[0] in node.children {
        WalkAppend(node.children[p[0]], p[1..], q);
      }
    }
  }

  /** Below a missing feature every feature is missing too, and reads as the
      default node: `a.b.c.d.e.f.g.zed` has the default experience. */
  lemma MissingBelowMissing(snapshot: FoxSnapshot, p: seq<string>, q: seq<string>)
    requires Walk(snapshot.Root(), p).None?
    ensures snapshot.GetFeature(p + q) == EmptyFeatureNode()
    ensures snapshot.GetFeatureExperience(p + q) == Experience(["default"], Some("default"), None)
    ensures snapshot.GetFeatureOptions(p + q) == JObj([])
  {
    WalkAppend(snapshot.Root(), p, q);
  }
}
