/** An already-loaded inventory: named groups, each with group-scope
    variables and an ordered list of member hosts with host-scope variables. */
module Inventory {

  /** Variable name to value; only string values are modelled. */
  type Vars = map<string, string>

  datatype Host = Host(name: string, vars: Vars)

  /** A group's variables and its hosts, in the order the inventory yields them. */
  datatype Group = Group(vars: Vars, hosts: seq<Host>)

  /** Group name to group. */
  type Inventory = map<string, Group>

  /** A copy of the group variables overlaid with the host variables
      (`dict.copy` followed by `dict.update`): host keys win, every other
      group key passes through, and nothing else appears. */
  function MergeVars(groupVars: Vars, hostVars: Vars): (merged: Vars)
    ensures merged.Keys == groupVars.Keys + hostVars.Keys
    ensures forall k :: k in hostVars ==> k in merged && merged[k] == hostVars[k]
    ensures forall k :: k in groupVars && k !in hostVars ==> k in merged && merged[k] == groupVars[k]
  {
    groupVars + hostVars
  }

  /** `d.get(key, default)`: the value when the key is present, otherwise the default. */
  function Get(vars: Vars, key: string, default: string): string
  {
    if key in vars then vars[key] else default
  }
}
