# ansimux, modelled in Dafny

ansimux turns an Ansible inventory group into tmux commands: for each host
of the group it builds an `ssh` invocation from the host's effective
variables and wraps it in a tmux directive that opens a window named after
the host. The first directive creates the session when none exists
(`has-session && new-window || new-session`); every later one only opens a
new window.

The model takes an already-loaded inventory and is purely functional:

- `results.dfy` (`Results`): `Result` for the raised `ValueError`.
- `strings.dfy` (`Strings`): substring occurrence, used to say what the
  error message mentions.
- `inventory.dfy` (`Inventory`): hosts, groups, the inventory as a map from
  group name to group, and the group/host variable merge.
- `connection.dfy` (`Connection`): user and address resolution and the
  `ssh` string.
- `templates.dfy` (`Templates`): the three template constants, Python's
  `" ".join` and `str.format` over templates made of text and the fields
  `{name}` and `{ssh}`.
- `tmux_format.dfy` (`TmuxFormat`): the infinite `tmux_format` generator as a
  two-state machine (not yet pulled, pulled at least once), and its
  index-based reading `FormatAt`. After one pull the Python generator is
  suspended at its first `yield`, after later pulls inside `while True`;
  both points yield the new-window template next and never leave the
  loop, so one state stands for both.
- `ansimux.dfy` (`Ansimux`): `tmux_command` itself, with the source's
  defaults `group_name='all'` and `hostfile='hosts'`. It is computed the way
  the source computes it, pulling one template from the generator per host,
  and specified by position: command `i` is host `i` filled into
  `FormatAt(i)`.
- `properties.dfy` (`Properties`): the commands written out as plain
  strings, and worked scenarios.

The address comes from `dict.get('ansible_host', host.name)`, which falls
back to the host's name only when the key is absent: a present but empty
`ansible_host` yields an empty address (`Properties.EmptyAnsibleHostIsKept`).
The user, by contrast, is tested for truthiness: an empty
`ansible_ssh_user` falls through to `ansible_user`, and an empty or absent
`ansible_user` gives the empty user.

## Model

| member | source | states |
|---|---|---|
| Inventory.MergeVars | ansimux.py:36-37 | The merged variables hold exactly the keys of the group and the host; a host key always has the host's value, a key only the group has keeps the group's value. |
| Connection.ResolveUser | ansimux.py:39-41 | The user is `ansible_ssh_user` when present and non-empty; otherwise `ansible_user` when present; otherwise empty. |
| Connection.ResolveAddress | ansimux.py:42 | The address is the `ansible_host` value whenever that key is present, even if empty, and the host's name only when it is absent. |
| Connection.SshCommand | ansimux.py:44-47 | The ssh string is `ssh user@address` when the user is non-empty and `ssh address` when it is empty; it always starts with `ssh ` and ends with the address. |
| Connection.HostSsh | ansimux.py:36-47 | A host's ssh string, stated over the group and host maps separately: each of `ansible_ssh_user`, `ansible_user` and `ansible_host` is taken from the host when the host sets it, even to the empty string, otherwise from the group; the user is the ssh-user pick when non-empty, else the plain-user pick; the address falls back to the host's name only when neither map sets `ansible_host`. |
| Properties.HostEmptySshUserHidesGroup | ansimux.py:36-41 | A host's empty `ansible_ssh_user` hides the group's `alice`, so the user falls through to the group's `ansible_user` `bob`: `ssh bob@h`. |
| Properties.WebHostsSsh | ansimux.py:39-47 | With no group variables, `ansible_user=deploy` on `h1` gives `ssh deploy@h1`, and `ansible_host=10.0.0.2` on `h2` gives `ssh 10.0.0.2`. |
| Templates.TemplatesMatchSourceText | ansimux.py:8-10 | The three template constants, with each field filled by its own placeholder, are exactly the source's `_CHECK_SESSION`, `_NEW_SESSION` and `_NEW_WINDOW` texts. |
| Templates.RenderAppend | ansimux.py:48 | Formatting a template (`str.format` with `name` and `ssh`) distributes over concatenation of templates: every segment is filled independently, values substituted verbatim. |
| Templates.RenderText | ansimux.py:8 | A template of plain text, such as `_CHECK_SESSION`, formats to itself. |
| Templates.RenderJoin | ansimux.py:14-15 | Joining templates with a plain separator and then formatting gives the same string as formatting each template and joining the results. |
| Templates.RenderNewWindow | ansimux.py:10 | The formatted new-window template is `tmux new-window -n <name> '<ssh>'`. |
| Templates.RenderNewSession | ansimux.py:9 | The formatted new-session template is `tmux new-session -d -n <name> '<ssh>'`. |
| Templates.RenderBootstrap | ansimux.py:8-15 | The formatted bootstrap template is the check-session text, two spaces, `&&`, the new-window form, `||`, then the new-session form, with the window name and the ssh command each filled in twice. |
| TmuxFormat.Next | ansimux.py:13-17 | One `next()` on the generator: afterwards the generator is always in the state that yields new-window, and it yields new-window exactly when it had already been pulled, so the bootstrap template comes only from the first pull. |
| TmuxFormat.AdvanceFromLooping | ansimux.py:16-17 | Once pulled, the generator stays in the state that yields new-window for any number of further pulls, as `while True` never exits. |
| TmuxFormat.PullYieldsFormatAt | ansimux.py:13-17 | The (i+1)-th pull of a fresh generator yields the bootstrap template when i is 0 and the new-window template for every i > 0, without bound. |
| Ansimux.MissingGroupMessage | ansimux.py:29 | The error message contains the group name and the inventory file name. |
| Ansimux.HostCommand | ansimux.py:48 | The command for the host at index i: for i = 0 the bootstrap form, for i > 0 `tmux new-window -n <host name> '<ssh>'`; the window is named by the host's inventory name, never its resolved address. |
| Ansimux.Emit | ansimux.py:34-48 | The per-host loop driven by the generator yields one command per host, in host order, and command i equals host i filled into the positional template for index (pulls so far + i). |
| Ansimux.TmuxCommand | ansimux.py:20-50 | With the defaults `all` and `hosts` for the group and the inventory file, it fails exactly when the group is missing, with a message naming the group and the inventory file; otherwise it returns one command per host of the group, command i being host i's merged-variable ssh string and name filled into the positional template for i. |
| Properties.FirstCommandIsBootstrap | ansimux.py:13-15 | For any group with at least one host, including a single host, the first command is the bootstrap form for the first host, naming the window after the host's inventory name. |
| Properties.LaterCommandsAreNewWindow | ansimux.py:16-17 | Every command at index 1 or later is `tmux new-window -n <host name> '<ssh>'` for the host at that index. |
| Properties.WebExample | ansimux.py:20-50 | For the two-host group `web` with `h1` (`ansible_user=deploy`) and `h2` (`ansible_host=10.0.0.2`) the commands are the bootstrap form with `ssh deploy@h1` for `h1` and the new-window form with `ssh 10.0.0.2` for `h2`. |
| Properties.MissingGroupExample | ansimux.py:28-29 | Asking for an absent group yields exactly `No group 'db' found in hosts`. |
| Properties.EmptyAnsibleHostIsKept | ansimux.py:42 | A present but empty `ansible_host` gives an empty address rather than the host's name. |
| Properties.UserFallbackExamples | ansimux.py:39-41 | An empty `ansible_ssh_user` falls through to `ansible_user`, a non-empty one wins, and with neither key the user is empty. |

The group's own variables are an immutable value in the model, so the merge
cannot change them; the source's `group_vars.copy()` (line 36) promises the
same.

## Left out

- Loading the inventory (`DataLoader`, `InventoryManager`, `group.get_vars()`, `group.get_hosts()`, lines 4-6, 25-26, 31-33): foreign library calls; the model takes the loaded inventory as its input, with each group's hosts in the order the library returns them.
- The `session` default from the current directory (line 21): an environment lookup whose value no template uses.
- The `hosts` parameter (line 20): it is overwritten at line 33 before any use.
- The command-line entry point (lines 52-66): argument parsing, printing the `" && "`-joined commands, and running each command with `subprocess.call` in its own shell. This is process I/O.
- Shell quoting: host names and variable values are substituted verbatim, and nothing is promised about how a shell reads the result.
- Non-string variable values: Ansible variables may be arbitrary objects; the model has strings only, where Python truthiness is non-emptiness.
