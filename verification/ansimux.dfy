/** `tmux_command`: one tmux command per host of the requested group. */
module Ansimux {
  import opened Results
  import opened Strings
  import opened Inventory
  import opened Connection
  import opened Templates
  import opened TmuxFormat

  /** The error raised for a group the inventory does not have. */
  function MissingGroupMessage(groupName: string, hostfile: string): (msg: string)
    ensures OccursAt(groupName, msg, 10)
    ensures OccursAt(hostfile, msg, 21 + |groupName|)
  {
    var msg := "No group '" + groupName + "' found in " + hostfile;
    assert msg[10..10 + |groupName|] == groupName;
    msg
  }

  /** The command for `host` when it is the `i`-th host of its group: the
      bootstrap form for the first host, the new-window form for every
      other; the window is always named after the host's inventory name,
      never its resolved address. */
  function HostCommand(groupVars: Vars, host: Host, i: nat): (cmd: string)
    ensures var ssh := HostSsh(groupVars, host);
            i == 0 ==> cmd == "tmux has-session 2> /dev/null  && "
                            + ("tmux new-window -n " + host.name + " '" + ssh + "'")
                            + " || "
                            + ("tmux new-session -d -n " + host.name + " '" + ssh + "'")
    ensures i > 0 ==> cmd == "tmux new-window -n " + host.name + " '" + HostSsh(groupVars, host) + "'"
  {
    var ssh := HostSsh(groupVars, host);
    RenderBootstrap(host.name, ssh);
    RenderNewWindow(host.name, ssh);
    Render(FormatAt(i), host.name, ssh)
  }

  /** The loop over the group's hosts, pulling one template from the
      generator per host; `pulled` counts the pulls made so far. */
  function Emit(groupVars: Vars, hosts: seq<Host>, g: Generator, pulled: nat): (cmds: seq<string>)
    requires g == Advance(Fresh, pulled)
    ensures |cmds| == |hosts|
    ensures forall i :: 0 <= i < |hosts| ==> cmds[i] == HostCommand(groupVars, hosts[i], pulled + i)
    decreases |hosts|
  {
    if hosts == [] then []
    else
      PullYieldsFormatAt(pulled);
      var (template, g') := Next(g);
      [Render(template, hosts[0].name, HostSsh(groupVars, hosts[0]))]
        + Emit(groupVars, hosts[1..], g', pulled + 1)
  }

  /** All commands for group `groupName`, or the missing-group error. */
  function TmuxCommand(inventory: Inventory, groupName: string := "all", hostfile: string := "hosts"): (r: Result<seq<string>, string>)
    ensures r.Err? <==> groupName !in inventory
    ensures r.Err? ==> IsInfix(groupName, r.error) && IsInfix(hostfile, r.error)
    ensures r.Ok? ==> |r.value| == |inventory[groupName].hosts|
    ensures r.Ok? ==> forall i :: 0 <= i < |r.value| ==>
              r.value[i] == HostCommand(inventory[groupName].vars, inventory[groupName].hosts[i], i)
  {
    if groupName !in inventory then
      var msg := MissingGroupMessage(groupName, hostfile);
      assert OccursAt(groupName, msg, 10);
      assert OccursAt(hostfile, msg, 21 + |groupName|);
      Err(msg)
    else
      var group := inventory[groupName];
      Ok(Emit(group.vars, group.hosts, Fresh, 0))
  }
}
