/**
 * The candidate table of role/profile mode (cmd/ssh.go,
 * getPrivateIPsAndTextLines) and the list it feeds to the picker
 * (sshByRoleProfile's prompt items and Searcher).
 */
module Candidates {
  import opened Results
  import opened Strings
  import opened Ec2
  import opened Tags

  /**
   * text/tabwriter, taken as given: the padded line of each row, computed
   * from all rows because a column is as wide as its widest cell.
   */
  type Aligner = seq<seq<string>> -> seq<string>

  /** What the table relies on from the tabwriter: one output line per row, none holding a line break. */
  ghost predicate KeepsLines(align: Aligner) {
    forall rows :: |align(rows)| == |rows| && forall i :: 0 <= i < |rows| ==> '\n' !in align(rows)[i]
  }

  const Header: seq<string> := ["Name", "InstanceID", "PrivateIP", "Role", "Type", "State", "Uptime"]

  /** Every instance of every reservation, reservation by reservation, each in provider order. */
  function Flatten(res: Reservations): seq<Instance> {
    if res == [] then [] else Flatten(res[..|res| - 1]) + res[|res| - 1]
  }

  /** The private address, or "N/A" when the instance has none. */
  function AddressOf(inst: Instance): string {
    if inst.privateIpAddress.Some? then inst.privateIpAddress.value else "N/A"
  }

  /** The cells of an instance's line: Name tag, id, address, Role column, type, state, uptime. */
  function Row(inst: Instance, humanize: int -> string): seq<string> {
    [GetValueFromTags(inst.tags, "Name"), inst.instanceId, AddressOf(inst),
     FormatRoleProfileFromTags(inst.tags), inst.instanceType, inst.state, humanize(inst.launchTime)]
  }

  /** The addresses the table offers, one per candidate in order. */
  function Addresses(insts: seq<Instance>): seq<string> {
    seq(|insts|, i requires 0 <= i < |insts| => AddressOf(insts[i]))
  }

  /** The rows written to the tabwriter: the header, then one row per candidate. */
  function Table(insts: seq<Instance>, humanize: int -> string): seq<seq<string>> {
    [Header] + seq(|insts|, i requires 0 <= i < |insts| => Row(insts[i], humanize))
  }

  /** The flushed tabwriter text, split at newlines. */
  function TextLines(insts: seq<Instance>, humanize: int -> string, align: Aligner): seq<string> {
    Split(Terminated(align(Table(insts, humanize)), '\n'), '\n')
  }

  lemma {:induction false} FlattenAppend(a: Reservations, b: Reservations)
    ensures Flatten(a + b) == Flatten(a) + Flatten(b)
    decreases |b|
  {
    if b != [] {
      var ab := a + b;
      assert ab[..|ab| - 1] == a + b[..|b| - 1];
      FlattenAppend(a, b[..|b| - 1]);
    } else {
      assert a + b == a;
    }
  }

  /**
   * Instance k of reservation r sits in the flattened list right after all
   * instances of the reservations before r.
   */
  lemma FlattenOrder(res: Reservations, r: nat, k: nat)
    requires r < |res| && k < |res[r]|
    ensures |Flatten(res[..r])| + k < |Flatten(res)|
    ensures Flatten(res)[|Flatten(res[..r])| + k] == res[r][k]
  {
    assert res == res[..r] + [res[r]] + res[r + 1..];
    FlattenAppend(res[..r] + [res[r]], res[r + 1..]);
    FlattenAppend(res[..r], [res[r]]);
    assert [res[r]][..0] == [];
  }

  /** There is no candidate exactly when every reservation is empty. */
  lemma {:induction false} FlattenEmpty(res: Reservations)
    ensures Flatten(res) == [] <==> forall r :: 0 <= r < |res| ==> res[r] == []
  {
    if res != [] {
      var init := res[..|res| - 1];
      FlattenEmpty(init);
      assert forall r :: 0 <= r < |init| ==> init[r] == res[r];
    }
  }

  /**
   * getPrivateIPsAndTextLines: the addresses of all candidates in order
   * ("N/A" for one without an address), and the tabwriter text of the
   * header and one row per candidate, split into lines.
   */
  method GetPrivateIPsAndTextLines(res: Reservations, humanize: int -> string, align: Aligner)
    returns (privateIPs: seq<string>, textLines: seq<string>)
    ensures privateIPs == Addresses(Flatten(res))
    ensures textLines == TextLines(Flatten(res), humanize, align)
  {
    privateIPs := [];
    var rows := [Header];
    for r := 0 to |res|
      invariant privateIPs == Addresses(Flatten(res[..r]))
      invariant rows == Table(Flatten(res[..r]), humanize)
    {
      var reservation := res[r];
      ghost var before := Flatten(res[..r]);
      for k := 0 to |reservation|
        invariant privateIPs == Addresses(before + reservation[..k])
        invariant rows == Table(before + reservation[..k], humanize)
      {
        var instance := reservation[k];
        var privateIP := "N/A";
        if instance.privateIpAddress.Some? {
          privateIP := instance.privateIpAddress.value;
        }
        var fields := [GetValueFromTags(instance.tags, "Name"), instance.instanceId, privateIP,
                       FormatRoleProfileFromTags(instance.tags), instance.instanceType, instance.state,
                       humanize(instance.launchTime)];
        ghost var done := before + reservation[..k];
        assert before + reservation[..k + 1] == done + [instance];
        rows := rows + [fields];
        privateIPs := privateIPs + [privateIP];
        assert privateIPs == Addresses(done + [instance]);
        assert rows == Table(done + [instance], humanize);
      }
      assert reservation[..|reservation|] == reservation;
      assert res[..r + 1][..r] == res[..r];
    }
    assert res[..|res|] == res;
    textLines := Split(Terminated(align(rows), '\n'), '\n');
  }

  /**
   * The split text is the header line, one line per candidate, and an empty
   * string after the final newline: two more lines than candidates.
   */
  lemma TextLinesShape(insts: seq<Instance>, humanize: int -> string, align: Aligner)
    requires KeepsLines(align)
    ensures var lines, table := TextLines(insts, humanize, align), Table(insts, humanize);
      && |lines| == |insts| + 2
      && lines == align(table) + [""]
  {
    var table := Table(insts, humanize);
    var aligned := align(table);
    assert |aligned| == |table| && forall i :: 0 <= i < |table| ==> '\n' !in aligned[i];
    SplitTerminated(aligned, '\n');
    assert TextLines(insts, humanize, align) == aligned + [""];
  }

  /** The address offered for candidate i is the PrivateIP cell of that candidate's row. */
  lemma AddressIsRowCell(insts: seq<Instance>, humanize: int -> string, i: nat)
    requires i < |insts|
    ensures i < |Addresses(insts)| && i + 1 < |Table(insts, humanize)|
    ensures Addresses(insts)[i] == Table(insts, humanize)[i + 1][2]
  {
  }

  /** promptui Items as the source builds them: every line after the header, the trailing empty one included. */
  function PromptItemsAsWritten(textLines: seq<string>): (items: seq<string>)
    requires |textLines| >= 1
    ensures |items| == |textLines| - 1
    ensures |textLines| >= 2 ==> items == PromptItems(textLines) + [textLines[|textLines| - 1]]
  {
    textLines[1..]
  }

  /** The items meant to be offered: one per candidate, the trailing empty line left out. */
  function PromptItems(textLines: seq<string>): seq<string>
    requires |textLines| >= 2
  {
    textLines[1..|textLines| - 1]
  }

  /** The Searcher keeps item `index` exactly when the item shown there contains the typed input. */
  function Searcher(textLines: seq<string>, input: string, index: int): (keep: bool)
    requires 0 <= index && index + 1 < |textLines|
    ensures keep <==> Contains(PromptItemsAsWritten(textLines)[index], input)
    ensures index < |textLines| - 2 ==> (keep <==> Contains(PromptItems(textLines)[index], input))
  {
    Contains(textLines[index + 1], input)
  }

  /**
   * As written, the list holds one item more than there are addresses: the
   * last item is empty, the initial empty search keeps it, and its index is
   * one past the end of privateIPs.
   */
  lemma BlankItemHasNoAddress(insts: seq<Instance>, humanize: int -> string, align: Aligner)
    requires KeepsLines(align)
    ensures var lines := TextLines(insts, humanize, align);
      var items, n := PromptItemsAsWritten(lines), |Addresses(insts)|;
      && |items| == n + 1
      && items[n] == ""
      && Searcher(lines, "", n)
  {
    TextLinesShape(insts, humanize, align);
    ContainsEmpty("");
  }

  /** Without the trailing line, item i is candidate i's row, so every index picked has an address. */
  lemma PromptItemsAreCandidateRows(insts: seq<Instance>, humanize: int -> string, align: Aligner)
    requires KeepsLines(align)
    ensures |TextLines(insts, humanize, align)| >= 2
    ensures var lines, table := TextLines(insts, humanize, align), Table(insts, humanize);
      var items := PromptItems(lines);
      && |items| == |Addresses(insts)|
      && forall i :: 0 <= i < |items| ==> items[i] == align(table)[i + 1] && table[i + 1] == Row(insts[i], humanize)
  {
    TextLinesShape(insts, humanize, align);
    var lines, table := TextLines(insts, humanize, align), Table(insts, humanize);
    var aligned := align(table);
    assert lines == aligned + [""];
    assert PromptItems(lines) == aligned[1..];
    forall i | 0 <= i < |insts|
      ensures table[i + 1] == Row(insts[i], humanize)
    {
    }
  }
}
