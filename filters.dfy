/** Query filters (cmd/ssh.go, getInstanceIDFilters and getRoleProfileFilters). */
module Filters {
  import opened Strings
  import opened Ec2

  /** One filter: the instance id equals the given id. */
  function GetInstanceIdFilters(instanceId: string): (filters: seq<Filter>)
    ensures |filters| == 1
    ensures filters[0].name == "instance-id" && filters[0].values == [instanceId]
  {
    [Filter("instance-id", [instanceId])]
  }

  /** A `tag:role` filter on `*role*`, and a `tag:profile` filter on `profile` unless it is empty. */
  function GetRoleProfileFilters(role: string, profile: string): (filters: seq<Filter>)
    ensures 1 <= |filters| <= 2
    ensures filters[0] == Filter("tag:role", ["*" + role + "*"])
    ensures |filters| == 2 <==> profile != ""
    ensures |filters| == 2 ==> filters[1] == Filter("tag:profile", [profile])
  {
    var filters := [Filter("tag:role", ["*" + role + "*"])];
    if profile != "" then filters + [Filter("tag:profile", [profile])] else filters
  }

  lemma TagFilterValues(key: string, inst: Instance)
    ensures AttributeValues("tag:" + key, inst) == TagValues(inst.tags, key)
  {
    assert ("tag:" + key)[0] == 't' != "instance-id"[0];
    assert HasPrefix("tag:" + key, "tag:");
    assert ("tag:" + key)[4..] == key;
  }

  /** With an id free of special characters, the provider returns exactly the instance with that id. */
  lemma InstanceIdFilterSelects(instanceId: string, inst: Instance)
    requires Literal(instanceId)
    ensures Selects(GetInstanceIdFilters(instanceId), inst) <==> inst.instanceId == instanceId
  {
    var f := GetInstanceIdFilters(instanceId)[0];
    GlobLiteral(instanceId, inst.instanceId);
    assert AttributeValues(f.name, inst) == [inst.instanceId];
    assert FilterHolds(f, inst) <==> Glob(instanceId, inst.instanceId);
    assert Selects(GetInstanceIdFilters(instanceId), inst) <==> FilterHolds(f, inst);
  }

  /**
   * With role and profile free of special characters, the provider returns exactly the
   * instances with a role tag containing `role` and, if `profile` is not
   * empty, a profile tag equal to it.
   */
  lemma RoleProfileFilterSelects(role: string, profile: string, inst: Instance)
    requires Literal(role) && Literal(profile)
    ensures Selects(GetRoleProfileFilters(role, profile), inst) <==>
      (exists v :: v in TagValues(inst.tags, "role") && Contains(v, role)) &&
      (profile == "" || profile in TagValues(inst.tags, "profile"))
  {
    var filters := GetRoleProfileFilters(role, profile);
    TagFilterValues("role", inst);
    TagFilterValues("profile", inst);
    assert "tag:role" == "tag:" + "role";
    assert "tag:profile" == "tag:" + "profile";
    forall a | a in TagValues(inst.tags, "role")
      ensures Glob("*" + role + "*", a) <==> Contains(a, role)
    {
      GlobContains(role, a);
    }
    forall a | a in TagValues(inst.tags, "profile")
      ensures Glob(profile, a) <==> a == profile
    {
      GlobLiteral(profile, a);
    }
    assert FilterHolds(filters[0], inst) <==> exists v :: v in TagValues(inst.tags, "role") && Contains(v, role);
    if profile != "" {
      assert FilterHolds(filters[1], inst) <==> profile in TagValues(inst.tags, "profile");
    }
    assert Selects(filters, inst) <==> FilterHolds(filters[0], inst) && (profile == "" || FilterHolds(filters[1], inst));
  }
}
