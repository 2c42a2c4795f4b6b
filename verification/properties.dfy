/** What the commands of `tmux_command` look like, written out as plain
    strings, and worked scenarios on small inventories. */
module Properties {
  import opened Results
  import opened Strings
  import opened Inventory
  import opened Connection
  import opened Templates
  import opened TmuxFormat
  import opened Ansimux

  /** The first command of a non-empty group is the bootstrap form for its
      first host: test for a session, then open a window in it or create
      one, naming the window after the host in both branches. This holds
      for a group of one host too. */
  lemma FirstCommandIsBootstrap(inventory: Inventory, groupName: string, hostfile: string)
    requires groupName in inventory && |inventory[groupName].hosts| >= 1
    ensures var r := TmuxCommand(inventory, groupName, hostfile);
            var host := inventory[groupName].hosts[0];
            var ssh := HostSsh(inventory[groupName].vars, host);
            && r.Ok? && |r.value| >= 1
            && r.value[0]
               == "tmux has-session 2> /dev/null  && "
                + ("tmux new-window -n " + host.name + " '" + ssh + "'")
                + " || "
                + ("tmux new-session -d -n " + host.name + " '" + ssh + "'")
  {
  }

  /** Every later command is the plain new-window form for its own host. */
  lemma LaterCommandsAreNewWindow(inventory: Inventory, groupName: string, hostfile: string, i: nat)
    requires groupName in inventory && 1 <= i < |inventory[groupName].hosts|
    ensures var r := TmuxCommand(inventory, groupName, hostfile);
            var host := inventory[groupName].hosts[i];
            && r.Ok? && i < |r.value|
            && r.value[i]
               == "tmux new-window -n " + host.name + " '" + HostSsh(inventory[groupName].vars, host) + "'"
  {
  }

  /** A host's empty `ansible_ssh_user` hides the group's non-empty one,
      and the user then falls through to `ansible_user`. */
  lemma HostEmptySshUserHidesGroup()
    ensures HostSsh(map["ansible_ssh_user" := "alice", "ansible_user" := "bob"],
                    Host("h", map["ansible_ssh_user" := ""])) == "ssh bob@h"
  {
  }

  /** With no group variables, `ansible_user=deploy` alone gives
      `ssh deploy@h1`, and `ansible_host=10.0.0.2` alone gives `ssh 10.0.0.2`. */
  lemma WebHostsSsh()
    ensures HostSsh(map[], Host("h1", map["ansible_user" := "deploy"])) == "ssh deploy@h1"
    ensures HostSsh(map[], Host("h2", map["ansible_host" := "10.0.0.2"])) == "ssh 10.0.0.2"
  {
    KeysDistinct();
    assert "ssh " + "deploy" + "@" + "h1" == "ssh deploy@h1";
    assert "ssh " + "10.0.0.2" == "ssh 10.0.0.2";
  }

  /** A two-host group `web`: `h1` with `ansible_user=deploy` and `h2`
      with `ansible_host=10.0.0.2`, no group variables. */
  function WebInventory(): (inventory: Inventory)
    ensures "web" in inventory && |inventory["web"].hosts| == 2
  {
    map["web" := Group(map[], [Host("h1", map["ansible_user" := "deploy"]),
                               Host("h2", map["ansible_host" := "10.0.0.2"])])]
  }

  /** `h1` gets `ssh deploy@h1` in the bootstrap form; `h2` gets
      `ssh 10.0.0.2` in the new-window form; both windows carry the
      inventory name. */
  lemma WebExample()
    ensures TmuxCommand(WebInventory(), "web", "hosts")
         == Ok(["tmux has-session 2> /dev/null  && "
                  + ("tmux new-window -n " + "h1" + " '" + "ssh deploy@h1" + "'")
                  + " || "
                  + ("tmux new-session -d -n " + "h1" + " '" + "ssh deploy@h1" + "'"),
                "tmux new-window -n " + "h2" + " '" + "ssh 10.0.0.2" + "'"])
  {
    var h1 := Host("h1", map["ansible_user" := "deploy"]);
    var h2 := Host("h2", map["ansible_host" := "10.0.0.2"]);
    var r := TmuxCommand(WebInventory(), "web", "hosts");
    assert WebInventory()["web"] == Group(map[], [h1, h2]);
    assert r.Ok? && r.value == [HostCommand(map[], h1, 0), HostCommand(map[], h2, 1)];
    WebHostsSsh();
  }

  /** A group name the inventory lacks yields the error naming both the
      group and the inventory file. */
  lemma MissingGroupExample()
    ensures TmuxCommand(WebInventory(), "db", "hosts") == Err("No group 'db' found in hosts")
  {
    assert "db" !in WebInventory();
    assert MissingGroupMessage("db", "hosts") == "No group 'db' found in hosts";
  }

  /** An `ansible_host` that is present but empty gives an empty address; it
      does not fall back to the host's name. */
  lemma EmptyAnsibleHostIsKept()
    ensures HostSsh(map[], Host("h3", map["ansible_host" := "", "ansible_user" := "ops"])) == "ssh ops@"
  {
  }

  /** An empty `ansible_ssh_user` falls through to `ansible_user`; a
      non-empty one wins over it. */
  lemma UserFallbackExamples()
    ensures ResolveUser(map["ansible_ssh_user" := "", "ansible_user" := "bob"]) == "bob"
    ensures ResolveUser(map["ansible_ssh_user" := "alice", "ansible_user" := "bob"]) == "alice"
    ensures ResolveUser(map["ansible_ssh_user" := "alice"]) == "alice"
    ensures ResolveUser(map[]) == ""
  {
  }
}
