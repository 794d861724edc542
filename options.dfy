/**
 * The `--pre-cache-resources` flag value of cmd/app/options/options.go: a list
 * of group-version-kind triples parsed from `Kind/version` or
 * `Kind/group/version` strings, stored behind a pointer that `Set`, `Append`
 * and `Replace` update in place, and rendered back by `GetSlice` and `String`.
 */
module Options {
  import opened Wrappers
  import opened Text

  /** schema.GroupVersionKind. */
  datatype GroupVersionKind = GroupVersionKind(group: string, version: string, kind: string)

  /** The error `Set` returns when the slice has no target list. */
  const NoTargetError: Error := "no target (nil pointer to []string)"

  /** The error `readResource` returns for a string without a '/'. */
  function InvalidGvkError(val: string): Error
  {
    "invalid gvk(" + val + ")"
  }

  /** schema.GroupVersion.String(): `group/version`, or just `version` in the core group. */
  function GroupVersionString(gvk: GroupVersionKind): string
  {
    if |gvk.group| > 0 then gvk.group + "/" + gvk.version else gvk.version
  }

  /** How `GetSlice` and `String` write one entry: `Kind/` followed by the group-version. */
  function Render(gvk: GroupVersionKind): string
  {
    gvk.kind + "/" + GroupVersionString(gvk)
  }

  function RenderAll(gvks: seq<GroupVersionKind>): seq<string>
  {
    seq(|gvks|, i requires 0 <= i < |gvks| => Render(gvks[i]))
  }

  /** No field holds the '/' that separates the parts of a rendered entry. */
  predicate SlashFree(gvk: GroupVersionKind)
  {
    '/' !in gvk.kind && '/' !in gvk.group && '/' !in gvk.version
  }

  predicate AllSlashFree(gvks: seq<GroupVersionKind>)
  {
    forall i :: 0 <= i < |gvks| ==> SlashFree(gvks[i])
  }

  /** `readResource`: split on '/'; fewer than two parts is an error, exactly three parts carry a group. */
  function ReadResource(val: string): (r: Result<GroupVersionKind, Error>)
    ensures r.Failure? <==> '/' !in val
    ensures r.Failure? ==> r.error == InvalidGvkError(val)
    ensures r.Success? ==> SlashFree(r.value)
  {
    var items := Split(val, '/');
    if |items| <= 1 then Failure(InvalidGvkError(val))
    else if |items| == 3 then Success(GroupVersionKind(items[1], items[2], items[0]))
    else Success(GroupVersionKind("", items[1], items[0]))
  }

  /** The empty string, in particular, is rejected. */
  lemma ReadResourceRejectsEmpty()
    ensures ReadResource("") == Failure(InvalidGvkError(""))
  {
  }

  /** `K/v` is the core-group kind K at version v. */
  lemma ReadResourceTwoParts(kind: string, version: string)
    requires '/' !in kind && '/' !in version
    ensures ReadResource(kind + "/" + version) == Success(GroupVersionKind("", version, kind))
  {
    SplitJoin([kind, version], '/');
    assert Join([kind, version], '/') == kind + "/" + version;
  }

  /** `K/g/v` is the kind K of group g at version v. */
  lemma ReadResourceThreeParts(kind: string, group: string, version: string)
    requires '/' !in kind && '/' !in group && '/' !in version
    ensures ReadResource(kind + "/" + group + "/" + version) == Success(GroupVersionKind(group, version, kind))
  {
    SplitJoin([kind, group, version], '/');
    assert [kind, group, version][1..] == [group, version];
    assert [group, version][1..] == [version];
    assert Join([group, version], '/') == group + "/" + version;
    assert Join([kind, group, version], '/') == kind + "/" + (group + "/" + version);
    assert kind + "/" + (group + "/" + version) == kind + "/" + group + "/" + version;
  }

  /** With four or more parts only the first two are read and the group stays empty. */
  lemma ReadResourceExtraParts(parts: seq<string>)
    requires |parts| >= 4
    requires forall i :: 0 <= i < |parts| ==> '/' !in parts[i]
    ensures ReadResource(Join(parts, '/')) == Success(GroupVersionKind("", parts[1], parts[0]))
  {
    SplitJoin(parts, '/');
  }

  /** Every rendered slash-free entry reads back as itself. */
  lemma ReadResourceOfRender(gvk: GroupVersionKind)
    requires SlashFree(gvk)
    ensures ReadResource(Render(gvk)) == Success(gvk)
  {
    if |gvk.group| > 0 {
      ReadResourceThreeParts(gvk.kind, gvk.group, gvk.version);
      assert Render(gvk) == gvk.kind + "/" + gvk.group + "/" + gvk.version;
    } else {
      ReadResourceTwoParts(gvk.kind, gvk.version);
    }
  }

  /** The strings that render back unchanged: two parts, or three with a non-empty group. */
  predicate WellFormed(s: string)
  {
    var items := Split(s, '/');
    |items| == 2 || (|items| == 3 && items[1] != "")
  }

  /** A well-formed string survives a read followed by a render. */
  lemma RenderOfReadResource(s: string)
    requires WellFormed(s)
    ensures ReadResource(s).Success? && Render(ReadResource(s).value) == s
  {
    var items := Split(s, '/');
    JoinSplit(s, '/');
    if |items| == 2 {
      assert Join(items, '/') == items[0] + "/" + items[1];
    } else {
      assert items[1..] == [items[1], items[2]];
      assert items[1..][1..] == [items[2]];
      assert Join(items[1..], '/') == items[1] + "/" + items[2];
      assert Join(items, '/') == items[0] + "/" + (items[1] + "/" + items[2]);
    }
  }

  /** The entries read before the first bad string, and that string's error if there is one. */
  datatype Parsed = Parsed(gvks: seq<GroupVersionKind>, err: Option<Error>)

  function ParseUntilError(items: seq<string>): (p: Parsed)
    ensures |p.gvks| <= |items|
    ensures p.err.None? <==> |p.gvks| == |items|
    ensures forall j :: 0 <= j < |p.gvks| ==> ReadResource(items[j]) == Success(p.gvks[j])
    ensures p.err.Some? ==> ReadResource(items[|p.gvks|]) == Failure(p.err.value)
  {
    if |items| == 0 then Parsed([], None)
    else match ReadResource(items[0])
      case Failure(e) => Parsed([], Some(e))
      case Success(gvk) =>
        var rest := ParseUntilError(items[1..]);
        Parsed([gvk] + rest.gvks, rest.err)
  }

  /** The loop shape of `Set` and `Replace`: k good strings, then a bad one or the end. */
  lemma ParseUntilErrorAt(items: seq<string>, gvks: seq<GroupVersionKind>)
    requires |gvks| <= |items|
    requires forall j :: 0 <= j < |gvks| ==> ReadResource(items[j]) == Success(gvks[j])
    requires |gvks| < |items| ==> ReadResource(items[|gvks|]).Failure?
    ensures ParseUntilError(items)
         == Parsed(gvks, if |gvks| < |items| then Some(ReadResource(items[|gvks|]).error) else None)
  {
    var p := ParseUntilError(items);
    assert p.gvks == gvks;
  }

  /** All-or-nothing parse: every entry, or the first error. */
  function ParseAll(items: seq<string>): (r: Result<seq<GroupVersionKind>, Error>)
    ensures r.Success? <==> forall j :: 0 <= j < |items| ==> ReadResource(items[j]).Success?
    ensures r.Success? ==> |r.value| == |items|
    ensures r.Success? ==> forall j :: 0 <= j < |items| ==> ReadResource(items[j]) == Success(r.value[j])
  {
    var p := ParseUntilError(items);
    if p.err.None? then Success(p.gvks) else Failure(p.err.value)
  }

  /** Rendering a slash-free list and parsing it back gives the list. */
  lemma {:induction false} ParseAllOfRenderAll(gvks: seq<GroupVersionKind>)
    requires forall i :: 0 <= i < |gvks| ==> SlashFree(gvks[i])
    ensures ParseAll(RenderAll(gvks)) == Success(gvks)
  {
    forall i | 0 <= i < |gvks| ensures ReadResource(RenderAll(gvks)[i]) == Success(gvks[i]) {
      ReadResourceOfRender(gvks[i]);
    }
    var r := ParseAll(RenderAll(gvks));
    assert r.Success?;
    assert r.value == gvks;
  }

  /** Parsing well-formed strings and rendering them gives the strings back. */
  lemma {:induction false} RenderAllOfParseAll(items: seq<string>)
    requires forall i :: 0 <= i < |items| ==> WellFormed(items[i])
    ensures ParseAll(items).Success? && RenderAll(ParseAll(items).value) == items
  {
    forall i | 0 <= i < |items| ensures ReadResource(items[i]).Success? && Render(ReadResource(items[i]).value) == items[i] {
      RenderOfReadResource(items[i]);
    }
  }

  /** No field holds the ',' that separates the entries of `String`. */
  predicate CommaFree(gvk: GroupVersionKind)
  {
    ',' !in gvk.kind && ',' !in gvk.group && ',' !in gvk.version
  }

  /** The text between the brackets of `String` is a valid `Set` argument that reproduces the list. */
  lemma {:induction false} ParseOfStringBody(gvks: seq<GroupVersionKind>)
    requires |gvks| >= 1
    requires forall i :: 0 <= i < |gvks| ==> SlashFree(gvks[i]) && CommaFree(gvks[i])
    ensures ParseUntilError(Split(Join(RenderAll(gvks), ','), ',')) == Parsed(gvks, None)
  {
    var rendered := RenderAll(gvks);
    forall i | 0 <= i < |rendered| ensures ',' !in rendered[i] {
      assert rendered[i] == gvks[i].kind + "/" + GroupVersionString(gvks[i]);
    }
    SplitJoin(rendered, ',');
    ParseAllOfRenderAll(gvks);
  }

  /** The pflag.Value behind `--pre-cache-resources`. */
  class ResourceSlice {
    /** The pointer to the stored list; `None` is a nil pointer. */
    var value: Option<seq<GroupVersionKind>>
    /** Whether a `Set` has appended anything yet. */
    var changed: bool

    /** Every stored entry came from `readResource`, so none of its fields holds a '/'. */
    predicate Valid()
      reads this
    {
      value.Some? ==> AllSlashFree(value.value)
    }

    /** The zero value `&ResourceSlice{}`. */
    constructor Zero()
      ensures value == None && !changed
      ensures Valid()
    {
      value := None;
      changed := false;
    }

    /** `NewPreCacheResources`: an empty list, then `Replace` with its error dropped. */
    constructor NewPreCacheResources(slice: seq<string>)
      ensures !changed
      ensures ParseAll(slice).Success? ==> value == Some(ParseAll(slice).value)
      ensures ParseAll(slice).Failure? ==> value == Some([])
      ensures Valid()
    {
      value := Some([]);
      changed := false;
      new;
      var _ := Replace(slice);
    }

    /** `Type`: the name pflag shows for the flag's value type. */
    function Type(): (t: string)
      ensures t == "resourceSlice"
    {
      "resourceSlice"
    }

    /** `Set`: clear the defaults unless changed, then parse the comma-separated entries and append them one by one. */
    method Set(val: string) returns (err: Option<Error>)
      modifies this
      ensures old(Valid()) ==> Valid()
      ensures old(value).None? ==> err == Some(NoTargetError) && value == old(value) && changed == old(changed)
      ensures old(value).Some? ==>
        var kept := if old(changed) then old(value).value else [];
        var p := ParseUntilError(Split(val, ','));
        && value == Some(kept + p.gvks)
        && err == p.err
        && changed == (old(changed) || |p.gvks| > 0)
    {
      if value.None? {
        return Some(NoTargetError);
      }
      if !changed {
        value := Some([]);
      }
      ghost var kept := value.value;
      var vals := Split(val, ',');
      err := AppendEach(vals);
      ghost var p := ParseUntilError(vals);
      assert AllSlashFree(p.gvks);
      assert AllSlashFree(kept) ==> AllSlashFree(kept + p.gvks);
    }

    /** The loop of `Set`: append each entry in turn, stopping at the first that does not parse. */
    method AppendEach(vals: seq<string>) returns (err: Option<Error>)
      requires value.Some?
      modifies this
      ensures value == Some(old(value).value + ParseUntilError(vals).gvks)
      ensures err == ParseUntilError(vals).err
      ensures changed == (old(changed) || |ParseUntilError(vals).gvks| > 0)
    {
      ghost var kept := value.value;
      ghost var added: seq<GroupVersionKind> := [];
      assert kept + added == kept;
      var i := 0;
      while i < |vals|
        invariant 0 <= i <= |vals| && |added| == i
        invariant value == Some(kept + added)
        invariant forall j :: 0 <= j < i ==> ReadResource(vals[j]) == Success(added[j])
        invariant changed == (old(changed) || i > 0)
      {
        var r := ReadResource(vals[i]);
        if r.Failure? {
          ParseUntilErrorAt(vals, added);
          return Some(r.error);
        }
        value := Some(value.value + [r.value]);
        assert kept + added + [r.value] == kept + (added + [r.value]);
        added := added + [r.value];
        changed := true;
        i := i + 1;
      }
      ParseUntilErrorAt(vals, added);
      return None;
    }

    /** `Append`: one parsed entry at the end, or the parse error and no change. */
    method Append(val: string) returns (err: Option<Error>)
      requires value.Some? || ReadResource(val).Failure?
      modifies this
      ensures old(Valid()) ==> Valid()
      ensures changed == old(changed)
      ensures ReadResource(val).Failure? ==> err == Some(ReadResource(val).error) && value == old(value)
      ensures ReadResource(val).Success? ==>
        err == None && value == Some(old(value).value + [ReadResource(val).value])
    {
      var r := ReadResource(val);
      if r.Failure? {
        return Some(r.error);
      }
      value := Some(value.value + [r.value]);
      return None;
    }

    /** `Replace`: all entries parsed into a new list, which is stored only if every entry was valid. */
    method Replace(slice: seq<string>) returns (err: Option<Error>)
      requires value.Some? || ParseAll(slice).Failure?
      modifies this
      ensures old(Valid()) ==> Valid()
      ensures changed == old(changed)
      ensures ParseAll(slice).Success? ==> err == None && value == Some(ParseAll(slice).value)
      ensures ParseAll(slice).Failure? ==> err == Some(ParseAll(slice).error) && value == old(value)
    {
      var parsed: seq<GroupVersionKind> := [];
      var i := 0;
      while i < |slice|
        invariant 0 <= i <= |slice| && |parsed| == i
        invariant forall j :: 0 <= j < i ==> ReadResource(slice[j]) == Success(parsed[j])
      {
        var r := ReadResource(slice[i]);
        if r.Failure? {
          ParseUntilErrorAt(slice, parsed);
          return Some(r.error);
        }
        parsed := parsed + [r.value];
        i := i + 1;
      }
      ParseUntilErrorAt(slice, parsed);
      value := Some(parsed);
      return None;
    }

    /** `GetSlice`: each stored entry rendered, in order. */
    method GetSlice() returns (slice: seq<string>)
      requires value.Some?
      ensures |slice| == |value.value|
      ensures forall i :: 0 <= i < |slice| ==> ReadResource(slice[i]).Success?
      ensures slice == RenderAll(value.value)
    {
      var gvks := value.value;
      slice := [];
      for i := 0 to |gvks|
        invariant slice == RenderAll(gvks[..i])
      {
        assert gvks[..i + 1] == gvks[..i] + [gvks[i]];
        slice := slice + [Render(gvks[i])];
      }
      assert gvks[..|gvks|] == gvks;
    }

    /** `String`: the rendered entries, comma-separated, in brackets; `[]` without a target. */
    method String() returns (s: string)
      ensures value.None? ==> s == "[]"
      ensures value.Some? ==> s == "[" + Join(RenderAll(value.value), ',') + "]"
    {
      if value.None? {
        return "[]";
      }
      var gvks := value.value;
      ghost var rendered := RenderAll(gvks);
      var sb := "";
      for i := 0 to |gvks|
        invariant sb == Join(rendered[..i], ',')
      {
        if i != 0 {
          sb := sb + ",";
        }
        sb := sb + Render(gvks[i]);
        if i == 0 {
          assert rendered[..1] == [rendered[0]];
        } else {
          assert rendered[..i + 1] == rendered[..i] + [rendered[i]];
          JoinSnoc(rendered[..i], rendered[i], ',');
        }
      }
      assert rendered[..|gvks|] == rendered;
      return "[" + sb + "]";
    }
  }

  /** `Options.PreCacheResourcesToGVKList`: the stored list itself. */
  function PreCacheResourcesToGVKList(preCacheResources: ResourceSlice): (gvks: seq<GroupVersionKind>)
    reads preCacheResources
    requires preCacheResources.value.Some?
    ensures gvks == preCacheResources.value.value
    // the list handed to the lister is exactly what the flag's rendering parses back to
    ensures preCacheResources.Valid() ==> ParseAll(RenderAll(gvks)) == Success(gvks)
  {
    var gvks := preCacheResources.value.value;
    if preCacheResources.Valid() then ParseAllOfRenderAll(gvks); gvks else gvks
  }
}
