# k8s-monitor, modelled in Dafny

k8s-monitor is a small command-line tool that lists one kind of Kubernetes
resource (pods, deployments, services, config maps, secrets or nodes) as a
fixed-width text table, once or, in watch mode, again and again after a
pause. This project models its presentation pipeline, all in
`k8s-monitor.go`:

- `formatAge`: the AGE column (module `Age`);
- `getReadyContainers` and `getTotalRestarts`: the READY and RESTARTS
  columns of a pod (module `Containers`, as loops proved against recursive
  specifications);
- the node STATUS scan that breaks at the first "Ready" condition and the
  ROLES label chain (module `Nodes`);
- the fields each lister reads and how it turns one item into a row,
  including the EXTERNAL-IP fallback (module `Resources`);
- the `%-Ns` / `%-Nd` table printing: header, one line per item, blank line
  and "Total <kind>: <n>" (module `Table`);
- `handleError`: the "Error: " line of a failed list call (module `Errors`);
- the resource-name switch and the refresh loop of `main` (module `Monitor`).

The cluster and the clock are parameters. Each iteration of the loop gets a
`Snapshot`: the current instant and, for every kind, the answer its list
call would get at that moment (a list of items or a `FetchError`). Instants
and durations are integers counting nanoseconds, as Go's `time.Duration`
does. Printed output is a sequence of lines. The loop's observable behaviour
is a sequence of events: list calls (with their namespace), printed lines,
and pauses (screen clear, banner, sleep). The watch loop never ends by
itself. Here it runs once per supplied snapshot and then reports `Stopped`,
which stands for the process being killed from outside.

Three behaviours of the code worth knowing:

- An object exactly 24 hours old is shown as "24h". The day branch tests
  `duration.Hours() > 24` strictly (k8s-monitor.go:262), so "1d" starts
  above 24 hours, not at 24 hours.
- A service whose first load-balancer ingress point has neither an IP nor a
  hostname shows an empty EXTERNAL-IP, not "<none>" (k8s-monitor.go:137-143).
  "<none>" appears only when there are no ingress points at all.
- A node that reports no "Ready" condition is shown as "Ready"
  (k8s-monitor.go:208).

## Model

| member | source | states |
|---|---|---|
| Age.FormatAge | k8s-monitor.go:260-272 | exactly one bucket is chosen: "d" iff the age is strictly over 24h, "h" iff it is from 1h up to and including 24h, "m" iff from 1m to under 1h, "s" otherwise (negative ages included); the number before the suffix is in `%d`'s shortest form and reads back as the age divided by that unit, truncated toward zero |
| Age.TruncDiv | k8s-monitor.go:263-270 | Go's float-to-int conversion truncates toward zero: for non-negative a, q*b <= a < q*b + b; for negative a, q*b - b < a <= q*b |
| Age.CoarsenessMonotone | k8s-monitor.go:260-272 | a later clock reading never shows an age in a finer unit than an earlier one |
| Age.ExactlyOneDayShowsHours | k8s-monitor.go:262-266 | exactly 24 hours prints "24h" because the day test is strict |
| Age.TwentyFiveHoursShowsOneDay | k8s-monitor.go:262-264 | 25 hours prints "1d" |
| Age.AlmostADayShowsHours | k8s-monitor.go:265-266 | 23h59m59s prints "23h": hours are truncated, not rounded |
| Age.NinetySecondsShowsOneMinute | k8s-monitor.go:267-268 | 90 seconds prints "1m" |
| Age.SkewedClockShowsNegativeSeconds | k8s-monitor.go:269-270 | a creation time 1.5s in the future prints "-1s": negative ages fall to the seconds branch and truncate toward zero |
| Containers.CountReady | k8s-monitor.go:242-250 | the ready count never exceeds the number of statuses |
| Containers.SumRestarts | k8s-monitor.go:252-258 | the total restarts of n containers lies between n times the smallest and n times the largest int32 |
| Containers.CountReadyCountsReadyPositions | k8s-monitor.go:242-250 | the ready count equals the number of positions whose status is ready |
| Containers.CountReadyAppend | k8s-monitor.go:244-248 | appending a status adds one to the ready count exactly when that status is ready |
| Containers.SumRestartsAppend | k8s-monitor.go:254-256 | appending a status adds exactly its restart count to the total |
| Containers.RestartsBoundEachCount | k8s-monitor.go:252-258 | with non-negative counts, every container's restart count lies between 0 and the total |
| Containers.GetReadyContainers | k8s-monitor.go:242-250 | the counting loop returns the number of ready statuses |
| Containers.GetTotalRestarts | k8s-monitor.go:252-258 | the summing loop returns the sum of the restart counts |
| Errors.ErrorLine | k8s-monitor.go:274-280 | the line is "Error: " followed by the server's status message for a status error, and by the error's own text for any other error |
| Nodes.NodeStatus | k8s-monitor.go:208-216 | STATUS is always "Ready" or "NotReady" |
| Nodes.NotReadyIffFirstReadyConditionNotTrue | k8s-monitor.go:208-216 | STATUS is "NotReady" if and only if there is a first condition of type "Ready" and its status is not "True" (so no "Ready" condition means "Ready") |
| Nodes.LaterConditionsIgnored | k8s-monitor.go:209-215 | once a "Ready" condition is present, conditions appended after it never change STATUS |
| Nodes.ScanNodeStatus | k8s-monitor.go:208-216 | the loop that breaks at the first "Ready" condition computes NodeStatus |
| Nodes.Roles | k8s-monitor.go:218-225 | ROLES is the role label's value whenever that label is present (even empty); else "master" if the master label is "true"; else "control-plane" if the control-plane label is "true"; else "<none>" |
| Nodes.ExplicitRoleWins | k8s-monitor.go:219-221 | a node labelled both with role "worker" and as master shows "worker" |
| Resources.HeadersFit | k8s-monitor.go:88-206 | every header title of all six tables fits its column width |
| Resources.ProjectPod | k8s-monitor.go:89-99 | a pod's row is name, phase, READY in `%d/%d` form reading back as (ready statuses, containers in the spec), RESTARTS in `%d` form reading back as the sum of restart counts, and its age |
| Resources.PodRow | k8s-monitor.go:90-99 | the per-pod statements, calling both helper loops, produce ProjectPod |
| Resources.ProjectDeployment | k8s-monitor.go:113-122 | READY is in `%d/%d` form and reads back as (ready replicas, spec replicas); UP-TO-DATE and AVAILABLE are in `%d` form and read back as their counts; spec replicas must be set |
| Resources.ExternalIP | k8s-monitor.go:137-143 | "<none>" without ingress points; otherwise the first point's IP when non-empty, else its hostname (so "" when both are empty) |
| Resources.LaterIngressIgnored | k8s-monitor.go:138-142 | ingress points after the first never change EXTERNAL-IP |
| Resources.ProjectService | k8s-monitor.go:136-153 | a service's row is name, type, cluster IP, ExternalIP of its ingress points, and its age |
| Resources.ProjectConfigMap | k8s-monitor.go:166-173 | DATA is in `%d` form and reads back as the number of keys in the config map's data |
| Resources.ProjectSecret | k8s-monitor.go:186-194 | DATA is in `%d` form and reads back as the number of keys in the secret's data; TYPE is the secret type |
| Resources.ProjectNode | k8s-monitor.go:207-235 | a node's row is name, NodeStatus of its conditions, Roles of its labels, kubelet version, and its age |
| Resources.NodeRow | k8s-monitor.go:207-235 | the per-node statements, with the status scan loop, produce ProjectNode |
| Resources.PodExample | k8s-monitor.go:90-92 | two containers, one ready, restarted 2 and 3 times, show READY "1/2" and RESTARTS "5" |
| Resources.DeploymentExample | k8s-monitor.go:114 | 2 ready of 3 replicas shows READY "2/3" |
| Resources.ServiceExamples | k8s-monitor.go:137-143 | hostname fallback, "<none>" without ingress, and "" when IP and hostname are both empty |
| Text.PadRight | k8s-monitor.go:94 | `%-Ns` keeps the whole value at the start, pads with blanks up to the width and never cuts a longer value |
| Text.IntToString | k8s-monitor.go:94 | `%d` output has the shortest decimal form (a minus sign exactly for negative numbers, no leading zero, never "-0") and reads back as the same integer |
| Text.DecimalIsPrinted | k8s-monitor.go:94 | every string of that shortest form is what `%d` prints for the number it reads as, so each number has exactly one printed form |
| Text.Fraction | k8s-monitor.go:90 | `%d/%d` is two shortest-form numbers around the first '/', and reads back as the same pair of integers |
| Table.FormatLine | k8s-monitor.go:94 | a printed line is never shorter than its columns plus the blanks between them, and exactly that long when no field overflows its width |
| Table.HeaderLine | k8s-monitor.go:88 | the header line spans at least all the columns, exactly when every title fits |
| Table.RowLine | k8s-monitor.go:94-99 | an item's line spans at least all the columns, exactly when every field fits, so fitting rows all have the header's length |
| Table.FormatLineJoinsCells | k8s-monitor.go:94-99 | a printed line is the padded fields joined by single blanks |
| Table.CellInPlace | k8s-monitor.go:94-99 | on a joined line each cell appears whole at its start offset |
| Table.FieldInPlace | k8s-monitor.go:94-99 | every field appears on its line whole and padded to its width, never truncated |
| Table.FittingCellsAreColumns | k8s-monitor.go:88-99 | while no field is wider than its column, field i starts at the fixed offset of column i |
| Table.ColumnsAlign | k8s-monitor.go:88-99 | when titles and fields fit, column i of the header and of a row start at the same offset and hold the padded title and the padded field |
| Table.TrailerLine | k8s-monitor.go:102 | the trailer is "Total <plural>: " followed by the count in `%d` form |
| Table.TableLines | k8s-monitor.go:88-102 | a table printed for n items has n + 4 lines |
| Table.PrefixStep | k8s-monitor.go:89-100 | printing one more item extends the printed lines by exactly that item's line |
| Table.EmitTable | k8s-monitor.go:88-102 | the print loop produces the blank line, the header, one line per row in order, a blank line and the trailer |
| Table.TableLayout | k8s-monitor.go:88-102 | a table has rows + 4 lines: blank, header, each row at its position, blank, and a trailer whose number is the row count |
| Table.EmptyTableCountsZero | k8s-monitor.go:102 | an empty list still prints four lines, ending in "Total <plural>: 0" |
| Monitor.ParseKind | k8s-monitor.go:49-65 | a name selects a kind only when it is that kind's plural or singular, and is rejected only when it is none of the twelve names |
| Monitor.ParseKindAcceptsExactlyTheNames | k8s-monitor.go:49-62 | a name selects a kind if and only if it is that kind's plural or singular |
| Monitor.PodRows | k8s-monitor.go:89-100 | one pod row per fetched pod, each with five fields |
| Monitor.DeploymentRows | k8s-monitor.go:113-123 | one deployment row per fetched deployment, each with five fields |
| Monitor.ServiceRows | k8s-monitor.go:136-153 | one service row per fetched service, each with five fields |
| Monitor.ConfigMapRows | k8s-monitor.go:166-173 | one row per fetched config map, each with three fields |
| Monitor.SecretRows | k8s-monitor.go:186-194 | one row per fetched secret, each with four fields |
| Monitor.NodeRows | k8s-monitor.go:207-236 | one node row per fetched node, each with five fields |
| Monitor.Rows | k8s-monitor.go:81-100 | the selected lister's rows all have as many fields as its table has columns |
| Monitor.RowsFollowFetch | k8s-monitor.go:82-86 | a lister fails exactly when its list call fails, with that call's error, and otherwise derives one row per item |
| Monitor.ListPods | k8s-monitor.go:88-102 | the pod loop prints the pod table of the pods' rows |
| Monitor.ListNodes | k8s-monitor.go:206-238 | the node loop prints the node table of the nodes' rows |
| Monitor.ListResources | k8s-monitor.go:81-239 | each lister prints its error line, or its table |
| Monitor.TickOutput | k8s-monitor.go:81-102 | a failed list call prints exactly its error line; a successful one prints as many lines as items plus four |
| Monitor.TickReportsFetch | k8s-monitor.go:81-103 | a failed list call prints only its error line and no table; a successful one prints items + 4 lines whose trailer counts the items, zero included |
| Monitor.TickReadsOnlyItsKind | k8s-monitor.go:49-61 | a tick's output depends only on the clock and on the answer to its own kind's list call |
| Monitor.EmptyListCountsZero | k8s-monitor.go:102 | an empty list prints a trailer "Total <plural>: 0" |
| Monitor.Banner | k8s-monitor.go:74 | the watch banner starts "Watching <resource> in namespace " and then names the namespace, with the resource as typed |
| Monitor.RunSpec | k8s-monitor.go:48-78 | the run exits with status 1 for an unsupported name, with status 0 after one tick without watch mode, and never exits by itself in watch mode |
| Monitor.WatchTraceStep | k8s-monitor.go:48-78 | each watch iteration appends one tick's events and one pause |
| Monitor.Run | k8s-monitor.go:48-78 | the loop produces exactly the events and the outcome of RunSpec |
| Monitor.TickCallsOnce | k8s-monitor.go:49-61 | a tick makes exactly one list call, for its kind, with the namespace (none for nodes), and does not pause |
| Monitor.UnsupportedExitsBeforeListing | k8s-monitor.go:62-64 | an unsupported name prints "Unsupported resource type: <name>" and exits with status 1, with no list call |
| Monitor.SingleShotRunsOneTick | k8s-monitor.go:67-70 | without watch mode the run makes exactly one list call, never pauses and exits with status 0 |
| Monitor.WatchCallsOncePerTick | k8s-monitor.go:48-78 | in watch mode the list calls are exactly one per tick, all for the selected kind and namespace, and there is one pause per tick |
| Monitor.WatchRunsEveryTick | k8s-monitor.go:67-78 | in watch mode the loop never exits by itself: it runs every supplied tick |

## Left out

- Kubeconfig lookup, client construction and their panics (k8s-monitor.go:20-43): external configuration and library calls. The flags reach the model already parsed, as `Config`.
- The Kubernetes API list calls and their context: network I/O. Each call's answer is an input, a list of items or a `FetchError`, in the tick's `Snapshot`. The model records that a call was made, for which kind and namespace, as an event.
- The screen clear, the banner and `time.Sleep` (k8s-monitor.go:73-77): terminal I/O and timing. They are one `Pause` event that carries the banner text and the interval.
- `time.Since` and the wall clock: the clock is the `now` of each snapshot.
- Resources.ProjectPod, Resources.ProjectDeployment, Resources.ProjectService, Resources.ProjectConfigMap, Resources.ProjectSecret, Resources.ProjectNode and Monitor.Rows: one clock reading per tick stands for the source's reading per item, since `formatAge` calls `time.Since` once for every item after the list call. So the model does not show two items created at the same instant getting different units when the clock crosses a unit boundary in the middle of a table.
- Age.FormatAge: computes on integer nanoseconds, not on the floating-point `Duration.Hours()`, `Minutes()` and `Seconds()`. It does not model float rounding near a bucket or unit boundary for ages beyond about 2^53 nanoseconds, nor the saturation of `time.Since` at the int64 limits.
- Text.PadRight: pads by characters. A Dafny `char` is a Unicode scalar value and Go's `%-Ns` width counts runes, so the two agree for any valid UTF-8 value. Invalid UTF-8 is not modelled: Go counts each bad byte as one rune.
- Containers.GetTotalRestarts: sums into an unbounded integer. Go's `int` is 64 bits on 64-bit targets, where the sum cannot overflow unless a pod has more than 2^32 containers. On 32-bit targets it wraps once the total passes 2^31 - 1, which the model does not show.
- Writes to stdout: output is the returned sequence of lines. A `Line` event is one `Printf` line without its newline.
- Monitor.Run: the endless watch loop is bounded by the supplied snapshots. When they run out, the outcome is `Stopped`, which stands for a process still running when it is killed from outside.
- Resources.ProjectDeployment: requires spec.replicas to be set, where the source would dereference a nil pointer and crash. The API server always defaults that field.
