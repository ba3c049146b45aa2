# openstack-dns-record-creator, modelled in Dafny

The controller listens on an AMQP queue for OpenStack notifications. It keeps
only `floatingip.update.end` events and turns each into a DNS record
operation. A detach (empty fixed IP) removes the record of the floating IP.
An attach first asks the compute API which server holds the floating IP, then
creates a record for that server's name.

This project models that pipeline:

- `types.dfy` (module `Types`): the decoded `Message` and the two structs it
  nests, the `Controller`, the region default and `newController`'s three
  startup steps with their early error returns.
- `startup.dfy` (module `Startup`): the broker connection decisions in `main`.
  That is the `amqp`/`amqps` choice, the TLS configuration and its
  `ServerName`, the connection URI and which dial is made. Go's
  `strings.Split` is modelled exactly and tied to an independent reading of
  "the text before the first separator". The URI is paired with a reader
  that takes it apart again. The round-trip lemma holds only when the parts
  contain no `:`, `/` or `@` in the places that would end a part early,
  because `main` puts the credentials into the URI unescaped.
- `resolver.dfy` (module `Resolver`): `getIntanceName`. The loosely typed
  address values become variants: a network value is a list of entries or
  something else; an entry is a string-keyed map or something else; a
  value is a string or something else. The method has the source's nested
  loops. It visits a server's networks in an order it picks freely, as Go's
  map iteration does, and its postcondition is the same for every such
  order. So the result does not depend on the traversal order.
- `dispatch.dfy` (module `Dispatch`): `handleMessage` over a finite run of
  deliveries, and the two task bodies. Each `go` statement becomes an
  emitted `Action`. Each call of `createRecord`/`removeRecord` becomes a
  `SinkCall` value.
- `wrappers.dfy` (module `Wrappers`): `Option` and `Result`.

Foreign calls are inputs. `json.Unmarshal` is replaced by the `Delivery`
variant (decoded message or decode error). The paged server listing and its
extraction are replaced by `ServerListing`. The three Gophercloud calls of
`newController` become the result of reading the options plus two function
parameters.

`createRecord` is called after every successful resolution, also when no
server matched and the name is `""` (main.go:127-133).

## Model

| member | source | states |
|---|---|---|
| `Types.Region` | types.go:39-42 | the region is never empty; it is `"RegionOne"` when OS_REGION_NAME is empty and otherwise the given value unchanged |
| `Types.NewController` | types.go:28-50 | a controller is returned iff all three steps succeed, the compute step being given the defaulted region; it then holds exactly the client the last step produced |
| `Types.AuthOptionsFailureStops` | types.go:29-32 | a failure reading the auth options is returned unchanged, and the result does not depend on the later steps or the region |
| `Types.AuthenticateFailureStops` | types.go:34-37 | an authentication failure is returned unchanged, and the result does not depend on the compute step or the region |
| `Types.ComputeStepDecides` | types.go:44-49 | after two successful steps the compute step's error is returned, or a controller holding its client |
| `Startup.Split` | main.go:51 | `strings.Split` on one character always gives at least one piece, and no piece contains the separator |
| `Startup.JoinSplit` | main.go:51 | joining the pieces with the separator gives back the original string |
| `Startup.SplitHead` | main.go:51 | the first piece of the split is the text before the first separator, or the whole string when there is none |
| `Startup.HostPart` | main.go:51 | the host part is a prefix of AMQP_HOST with no `:`, is followed by `:` when shorter, and is the whole host when it has no `:` (so `""` for an empty host) |
| `Startup.ServerName` | main.go:51 | the server name is `"AMQP/"` followed by the host before its first `:` |
| `Startup.ConnectionString` | main.go:55 | the URI is the scheme, `://`, the user, `:`, the password, `@`, the host and `/`, each part at its offset and nothing else; its partner is the round-trip lemma below |
| `Startup.ConnectionStringRoundTrip` | main.go:55 | the URI is scheme, `://`, user, `:`, pass, `@`, host, `/`: reading it back gives the same four parts whenever they hold no separator that would end a part early |
| `Startup.PlanConnection` | main.go:28-63 | the scheme is `amqps` and a TLS configuration exists iff all three certificate paths are non-empty, otherwise `amqp` with none; the TLS configuration names those files and the server name; the URI uses the chosen scheme; the TLS dial is made exactly when TLS is configured, the plain dial otherwise, both on that URI |
| `Resolver.FirstMatch` | main.go:150-164 | finds the first server in listing order with a network list holding a map whose `OS-EXT-IPS:type` is `floating` and whose `addr` is the target; None only when no server has one |
| `Resolver.ResolveName` | main.go:150-166 | the resolved name is that of a matching server with no matching server before it, or `""` when no server matches |
| `Resolver.GetInstanceName` | main.go:139-167 | a listing or extraction error gives `("", err)`; otherwise no error and the first matching server's name, or `""` when none matches, whatever order each server's networks are visited in |
| `Resolver.ResolveNameAppend` | main.go:150-157 | first match wins: a match in an earlier part of the listing hides every later server; without one the later part decides |
| `Resolver.MatchingServerResolves` | main.go:151-157 | a server with a matching entry under any network resolves to its own name when it is the only server listed |
| `Resolver.NoMatchResolvesEmpty` | main.go:166 | with no matching entry anywhere the resolved name is `""` |
| `Resolver.OtherValueSkipped` | main.go:152 | a network whose value is not a list never makes a server match |
| `Resolver.NonMatchingEntrySkipped` | main.go:153-156 | an entry that is not a map, or lacks the floating type or the address as strings, never makes a list match |
| `Dispatch.Classify` | main.go:106-122 | a delivery gives no action iff it failed to decode or its event type is not `floatingip.update.end`; an action carries the floating IP and is a remove iff the fixed IP is empty |
| `Dispatch.Dispatch` | main.go:104-124 | the actions for a run of deliveries, never more than the deliveries; characterised by the append, dropped-delivery and in-order lemmas below |
| `Dispatch.HandleMessage` | main.go:104-124 | the loop emits exactly the actions that the deliveries give, in delivery order |
| `Dispatch.DispatchAppend` | main.go:105 | the actions of a concatenation of runs are the actions of the first run followed by those of the second |
| `Dispatch.DroppedDeliveryIgnored` | main.go:107-115 | a dropped delivery adds no action and does not affect the actions of the deliveries after it |
| `Dispatch.AcceptedPositionsSound` | main.go:105-123 | the accepted positions are positions of accepted deliveries, strictly increasing |
| `Dispatch.AcceptedPositionsComplete` | main.go:105-123 | every accepted delivery's position is among the accepted positions |
| `Dispatch.DispatchInOrder` | main.go:105-123 | one action per accepted delivery: as many actions as accepted positions, the k-th being the one for the k-th accepted delivery |
| `Dispatch.GetInstanceNameAndCreateRecord` | main.go:126-137 | a resolver error means no createRecord call; otherwise createRecord receives the resolved name, which may be `""`, and the same floating IP |
| `Dispatch.RunAction` | main.go:117-122 | a remove task calls removeRecord with the floating IP, whatever the listing holds; an attach task resolves and then creates if resolution succeeded |
| `Dispatch.CreateNamesMatchingServer` | main.go:133 | when every server has a name, the create call carries a non-empty name iff some server reports the floating IP |
| `Dispatch.AttachScenario` | main.go:104-137 | an attach event for 203.0.113.5, with web-01 reporting it as floating, gives one resolve-then-create action that resolves to `web-01` |
| `Dispatch.DetachAndDropScenarios` | main.go:104-124 | an empty fixed IP gives a remove of 203.0.113.9; another event type or an undecodable body gives nothing |

## Left out

- AMQP dialing, the channel, queue declaration and consumer registration (main.go:57-91): network I/O in the AMQP client library. Only the choice of dial and its URI are modelled.
- Loading the key pair, reading the CA file and building the certificate pool (main.go:34-46): file I/O and X.509 parsing, which are fatal on failure. The TLS configuration records the file paths and the server name only.
- The decoding inside `json.Unmarshal` (main.go:107): a delivery is given already decoded or failed. A JSON `null` for `fixed_ip_address` leaves the Go field at `""`, which is why a detach shows up as an empty fixed IP.
- Goroutines and the `halt` channel (main.go:98-101, 118, 122): each started goroutine is an emitted action. The order in which tasks run and their races are not modelled.
- The delivery stream is unbounded in the source; `HandleMessage` works on any finite prefix of it.
- Auto-acknowledgement and the resulting at-most-once delivery (main.go:83): a broker-side property with no code path in the core.
- The Gophercloud calls (main.go:140-147, types.go:29-44): they are inputs (`ServerListing`, the option result and two function parameters). The compute client a `Controller` holds is not passed to the resolver; the listing stands for what that client returns.
- `createRecord` / `removeRecord` bodies and their error returns (main.go:169-181): log-only stubs that always succeed. A task ends with the sink call it makes.
- All `log.Printf` / `log.Fatalf` output; `log.Fatalf` after a startup failure ends the process, which is outside the model.
