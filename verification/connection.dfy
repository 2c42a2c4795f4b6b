/** How one host's effective variables turn into an `ssh` invocation. */
module Connection {
  import opened Inventory

  const SshUserKey := "ansible_ssh_user"
  const UserKey := "ansible_user"
  const HostKey := "ansible_host"

  /** The three recognised keys are different keys. */
  lemma KeysDistinct()
    ensures SshUserKey != UserKey && SshUserKey != HostKey && UserKey != HostKey
  {
    assert |SshUserKey| != |UserKey| && |SshUserKey| != |HostKey|;
    assert UserKey[8] != HostKey[8];
  }

  /** The login user: the legacy `ansible_ssh_user` unless it is missing or
      empty (Python falsy), then `ansible_user`, then the empty string. */
  function ResolveUser(vars: Vars): (user: string)
    ensures SshUserKey in vars && vars[SshUserKey] != "" ==> user == vars[SshUserKey]
    ensures (SshUserKey !in vars || vars[SshUserKey] == "") && UserKey in vars ==> user == vars[UserKey]
    ensures (SshUserKey !in vars || vars[SshUserKey] == "") && UserKey !in vars ==> user == ""
  {
    var user := Get(vars, SshUserKey, "");
    if user != "" then user else Get(vars, UserKey, "")
  }

  /** The connection address: `ansible_host` whenever the key is present,
      even when its value is empty; the host's own name only when it is absent. */
  function ResolveAddress(vars: Vars, hostName: string): (address: string)
    ensures HostKey in vars ==> address == vars[HostKey]
    ensures HostKey !in vars ==> address == hostName
  {
    Get(vars, HostKey, hostName)
  }

  /** `ssh user@address`, or `ssh address` when there is no user: the
      `user and user + '@' or ''` prefix is empty exactly when the user is. */
  function SshCommand(user: string, address: string): (ssh: string)
    ensures user != "" ==> ssh == "ssh " + user + "@" + address
    ensures user == "" ==> ssh == "ssh " + address
    ensures ssh[..4] == "ssh " && ssh[|ssh| - |address|..] == address
  {
    "ssh " + (if user != "" then user + "@" else "") + address
  }

  /** The ssh invocation for `host` in a group whose variables are
      `groupVars`, spelled out over the two maps: each recognised key is
      taken from the host when the host sets it (even to the empty string),
      otherwise from the group. So a host's empty `ansible_ssh_user` hides
      the group's and the user falls through to `ansible_user`, and the
      address is the host's name only when neither map sets `ansible_host`. */
  function HostSsh(groupVars: Vars, host: Host): (ssh: string)
    ensures var sshUser := if SshUserKey in host.vars then host.vars[SshUserKey]
                           else if SshUserKey in groupVars then groupVars[SshUserKey] else "";
            var plainUser := if UserKey in host.vars then host.vars[UserKey]
                             else if UserKey in groupVars then groupVars[UserKey] else "";
            var user := if sshUser != "" then sshUser else plainUser;
            var address := if HostKey in host.vars then host.vars[HostKey]
                           else if HostKey in groupVars then groupVars[HostKey] else host.name;
            ssh == (if user == "" then "ssh " + address else "ssh " + user + "@" + address)
  {
    var vars := MergeVars(groupVars, host.vars);
    SshCommand(ResolveUser(vars), ResolveAddress(vars, host.name))
  }
}
