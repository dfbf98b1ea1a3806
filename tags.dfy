/** Reading instance tags (cmd/ssh.go, getValueFromTags and formatRoleProfileFromTags). */
module Tags {
  import opened Strings
  import opened Ec2

  /** The value of the first tag whose key is `key`, or "" when no tag has that key. */
  function GetValueFromTags(tags: seq<Tag>, key: string): (value: string)
    ensures value == "" || exists i :: 0 <= i < |tags| && tags[i].key == key && tags[i].value == value
  {
    if tags == [] then ""
    else if tags[0].key == key then tags[0].value
    else GetValueFromTags(tags[1..], key)
  }

  /** The first tag with the key decides the value; later tags with the same key are ignored. */
  lemma {:induction false} ValueOfFirstMatchingTag(tags: seq<Tag>, key: string, i: nat)
    requires i < |tags| && tags[i].key == key
    requires forall j :: 0 <= j < i ==> tags[j].key != key
    ensures GetValueFromTags(tags, key) == tags[i].value
  {
    if i > 0 {
      ValueOfFirstMatchingTag(tags[1..], key, i - 1);
    }
  }

  /** A missing key reads as the empty string. */
  lemma {:induction false} ValueOfMissingTag(tags: seq<Tag>, key: string)
    requires forall j :: 0 <= j < |tags| ==> tags[j].key != key
    ensures GetValueFromTags(tags, key) == ""
  {
    if tags != [] {
      ValueOfMissingTag(tags[1..], key);
    }
  }

  /** The value shown is the first of the values a `tag:` filter tests, or "" when there are none. */
  lemma {:induction false} ValueIsFirstTagValue(tags: seq<Tag>, key: string)
    ensures var vs := TagValues(tags, key);
      GetValueFromTags(tags, key) == if vs == [] then "" else vs[0]
  {
    if tags != [] {
      ValueIsFirstTagValue(tags[1..], key);
    }
  }

  /** The Role column: `role/profile`, or the role alone when the profile is empty. */
  function FormatRoleProfileFromTags(tags: seq<Tag>): (column: string)
    ensures HasPrefix(column, GetValueFromTags(tags, "role"))
  {
    var role := GetValueFromTags(tags, "role");
    var profile := GetValueFromTags(tags, "profile");
    if profile != "" then role + "/" + profile else role
  }

  /**
   * When neither value holds a slash, the Role column splits back into the
   * role and, if it is not empty, the profile.
   */
  lemma RoleColumnSplitsBack(tags: seq<Tag>)
    requires '/' !in GetValueFromTags(tags, "role")
    requires '/' !in GetValueFromTags(tags, "profile")
    ensures var role, profile := GetValueFromTags(tags, "role"), GetValueFromTags(tags, "profile");
      Split(FormatRoleProfileFromTags(tags), '/') == if profile == "" then [role] else [role, profile]
  {
    var role, profile := GetValueFromTags(tags, "role"), GetValueFromTags(tags, "profile");
    SplitNone(role, '/');
    SplitNone(profile, '/');
    SplitAtFirst(role, '/', profile);
  }
}
