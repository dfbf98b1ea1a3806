/**
 * The shapes of the EC2 API that the core reads and writes, the cloud
 * itself as an oracle, and the provider's documented meaning of a filter
 * set, which is the reference the filter builders are proved against.
 */
module Ec2 {
  import opened Results
  import opened Strings

  datatype Tag = Tag(key: string, value: string)

  /** The fields of an ec2.Instance the core reads; an absent private address is None. */
  datatype Instance = Instance(
    tags: seq<Tag>,
    instanceId: string,
    privateIpAddress: Option<string>,
    instanceType: string,
    state: string,
    launchTime: int)

  /** ec2.Filter: a name and the values any one of which may match. */
  datatype Filter = Filter(name: string, values: seq<string>)

  /** DescribeInstancesOutput.Reservations, each with its instances, in provider order. */
  type Reservations = seq<seq<Instance>>

  /**
   * The cloud, per environment: `connect(env)` is the error (if any) of
   * creating a client for the named shared-config profile, and
   * `describe(env, filters)` the outcome of DescribeInstances with those filters.
   */
  datatype Cloud = Cloud(
    connect: string -> Option<string>,
    describe: (string, seq<Filter>) -> Result<Reservations>)

  /**
   * The characters with a meaning of their own in a filter value: `*`
   * matches any run of characters, `?` zero or one character, and `\`
   * makes the character after it stand for itself.
   */
  predicate Special(c: char) {
    c == '*' || c == '?' || c == '\\'
  }

  /** A filter value that stands for itself: no special character in it. */
  predicate Literal(s: string) {
    forall i :: 0 <= i < |s| ==> !Special(s[i])
  }

  /**
   * Does filter value `pattern` match attribute value `s`? A `\` at the
   * very end escapes nothing and is taken as itself.
   */
  predicate Glob(pattern: string, s: string)
    decreases |pattern| + |s|
  {
    if pattern == [] then s == []
    else if pattern[0] == '\\' && |pattern| >= 2 then s != [] && s[0] == pattern[1] && Glob(pattern[2..], s[1..])
    else if pattern[0] == '*' then Glob(pattern[1..], s) || (s != [] && Glob(pattern, s[1..]))
    else if pattern[0] == '?' then Glob(pattern[1..], s) || (s != [] && Glob(pattern[1..], s[1..]))
    else s != [] && pattern[0] == s[0] && Glob(pattern[1..], s[1..])
  }

  /** The values of every tag named `key`. */
  function TagValues(tags: seq<Tag>, key: string): (vs: seq<string>)
    ensures forall v :: v in vs <==> exists i :: 0 <= i < |tags| && tags[i].key == key && tags[i].value == v
  {
    if tags == [] then []
    else (if tags[0].key == key then [tags[0].value] else []) + TagValues(tags[1..], key)
  }

  /** The attribute values a filter name refers to: the instance id, or the values of tag `K` for `tag:K`. */
  function AttributeValues(name: string, inst: Instance): seq<string> {
    if name == "instance-id" then [inst.instanceId]
    else if HasPrefix(name, "tag:") then TagValues(inst.tags, name[4..])
    else []
  }

  /** A filter holds when one of its values matches one of the attribute values it names. */
  predicate FilterHolds(f: Filter, inst: Instance) {
    exists v, a :: v in f.values && a in AttributeValues(f.name, inst) && Glob(v, a)
  }

  /** DescribeInstances returns the instances for which every filter holds. */
  predicate Selects(filters: seq<Filter>, inst: Instance) {
    forall f :: f in filters ==> FilterHolds(f, inst)
  }

  /**
   * Special characters at work: an escaped star matches only a star, so
   * `*x\*` (a role `x\` wrapped in stars) selects values ending in "x*"
   * rather than those containing "x\"; `?` matches zero or one character.
   */
  lemma SpecialCharacters()
    ensures Glob("*x\\*", "ax*") && !Glob("*x\\*", "ax\\")
    ensures Glob("a?", "a") && Glob("a?", "ab") && !Glob("a?", "abc")
  {
    assert Glob("\\*", "*");
    assert Glob("x\\*", "x*");
    assert Glob("*x\\*", "x*");
  }

  /** A value without special characters matches only itself. */
  lemma {:induction false} GlobLiteral(r: string, s: string)
    requires Literal(r)
    ensures Glob(r, s) <==> r == s
    decreases |r|
  {
    if r != [] && s != [] {
      GlobLiteral(r[1..], s[1..]);
      assert r == [r[0]] + r[1..];
      assert s == [s[0]] + s[1..];
    }
  }

  /** A leading `*` lets the rest of the pattern match any suffix. */
  lemma {:induction false} GlobLeadingStar(q: string, s: string)
    ensures Glob("*" + q, s) <==> exists i :: 0 <= i <= |s| && Glob(q, s[i..])
    decreases |s|
  {
    var p := "*" + q;
    assert p[1..] == q;
    assert s[0..] == s;
    if s != [] {
      GlobLeadingStar(q, s[1..]);
      if Glob(p, s) && !Glob(q, s) {
        var i :| 0 <= i <= |s| - 1 && Glob(q, s[1..][i..]);
        assert s[1..][i..] == s[i + 1..];
      }
      if exists i :: 0 <= i <= |s| && Glob(q, s[i..]) {
        var i :| 0 <= i <= |s| && Glob(q, s[i..]);
        if i > 0 {
          assert s[1..][i - 1..] == s[i..];
        }
      }
    }
  }

  /** A literal followed by `*` matches exactly the strings it prefixes. */
  lemma {:induction false} GlobLiteralStar(r: string, s: string)
    requires Literal(r)
    ensures Glob(r + "*", s) <==> r <= s
    decreases |r|
  {
    if r == [] {
      assert r + "*" == "*" + "";
      GlobLeadingStar("", s);
      assert s[|s|..] == [];
    } else {
      var p := r + "*";
      assert p[0] == r[0];
      assert p[1..] == r[1..] + "*";
      if s != [] {
        GlobLiteralStar(r[1..], s[1..]);
        assert r <= s <==> r[0] == s[0] && r[1..] <= s[1..];
      }
    }
  }

  /** `*r*` with a literal `r` matches exactly the strings containing `r`. */
  lemma GlobContains(r: string, s: string)
    requires Literal(r)
    ensures Glob("*" + r + "*", s) <==> Contains(s, r)
  {
    assert "*" + r + "*" == "*" + (r + "*");
    GlobLeadingStar(r + "*", s);
    forall i | 0 <= i <= |s|
      ensures Glob(r + "*", s[i..]) <==> r <= s[i..]
    {
      GlobLiteralStar(r, s[i..]);
    }
  }
}
