# Voice gateway swap, modelled in Dafny

`swap_voice_gateway.py` migrates a Cisco voice gateway (VG) to a like-for-like replacement
through the AXL administrative API: it reads the gateway named by the operator, lists
the gateway's analog ports with a direct SQL query on `mgcpdevicemember`, maps the
source model to its replacement (VG204 to VG400, VG310 to VG410 with a 24FXS card,
VG320 to VG410 with a 48FXS card), creates the replacement under the name
`new-<domain>`, and re-creates each port's endpoint on it. The endpoint keeps its
directory number, partition, display, external mask, device pool, location and
description, and gets a renumbered port index and a new `AALN/S<unit>/SU<subunit>/<port>@<domain>` name.

The model keeps the script's logic and treats the AXL service as an input: a `Service`
value says how each operation answers its argument. Creating an endpoint may also
depend on the endpoints created before it. A run is then the list of calls the script
makes plus how it ends (completed, a reported fault, or the `NameError` an unsupported
model runs into).

Modules (one per concern of the script):

- `Wrappers` (wrappers.dfy): `Option` and `Result`.
- `Text` (text.dfy): ASCII `lower`/`upper`, `str()` of an int, reading an int back, and splitting at a separator.
- `Axl` (axl.dfy): the records exchanged with the service.
- `GatewayMap` (gateway_map.dfy): the swap rules, the `new-` prefix and vendorConfig.
- `PortQuery` (port_query.dfy): the raw uuid, the member query and `get_column`.
- `Endpoints` (endpoints.dfy): port renumbering, port names and the endpoint request.
- `Migration` (migration.dfy): the loop over ports (`MigratePorts`, a method with a loop
  invariant) and the whole script (`SwapVoiceGateway`, a method that reassigns `domain`,
  `gateway`, `unit` and `subunit` as the script does). Both are proved equal to the
  specification functions `PortsOutcome` and `Migration`, and the lemmas are about those functions.

For a model none of the three rules covers, the code does not stop. It submits the
gateway record as fetched (with the vendorConfig set on it) to `addGateway`. It then
looks up the first port. If that lookup succeeds, the script fails with a `NameError`
on `unit`; a failed lookup exits with that fault instead. This fall-through is a
latent defect of the script; the model keeps it.

## Model

| member | source | states |
|---|---|---|
| `GatewayMap.MappingTable` | swap_voice_gateway.py:176-243 | exactly VG204, VG310 and VG320 are mapped: to VG400 with VG-4FXS/4FXO, VG410 with VG-24FXS and VG410 with VG-48FXS; every mapped case uses unit card VG-1NIM-MBRD at unit 0 and subunit 1 |
| `GatewayMap.LikeForLikePortCount` | swap_voice_gateway.py:169-174 | each replacement subunit card has as many FXS ports as the model it replaces (4, 24, 48) |
| `GatewayMap.MappedGatewayFields` | swap_voice_gateway.py:167-243 | a mapped gateway has domain "new-" + entered name, protocol MGCP, the fetched description and call manager group unchanged, one unit 0 (VG-1NIM-MBRD) with one subunit 1 beginning at port 0; `unit`/`subunit` are bound to 0 and 1 |
| `GatewayMap.UnsupportedModelKeepsFetchedRecord` | swap_voice_gateway.py:124-243 | for any other model the record stays as fetched (not remapped, name not prefixed) and no unit/subunit is bound |
| `PortQuery.RawUuid` | swap_voice_gateway.py:145 | the raw uuid has length n-2 for an n-character uuid (n >= 2), else is empty, and character i is the lower-cased character i+1 of the uuid |
| `PortQuery.RawUuidUndoesAxlForm` | swap_voice_gateway.py:141-145 | lower-casing and unbracing inverts AXL's upper-case, braced form of any raw uuid |
| `PortQuery.RawUuidExample` | swap_voice_gateway.py:145 | "{ABC-1}" becomes "abc-1" |
| `PortQuery.QueryKeyOfMemberQuery` | swap_voice_gateway.py:146 | the member query names exactly the raw uuid it was built from |
| `PortQuery.GetColumnFirstMatch` | swap_voice_gateway.py:288-290 | get_column returns the text of the first element whose tag matches |
| `PortQuery.GetColumnNone` | swap_voice_gateway.py:288-290 | get_column returns None when no element has the tag, and (when every element has text) only then |
| `PortQuery.GetColumnIgnoresLater` | swap_voice_gateway.py:288-290 | once a row has a matching element, appending further elements never changes the result |
| `Endpoints.RenumberRule` | swap_voice_gateway.py:300-304 | a port on subunit 1 gets index + 24, a port on any other subunit keeps its index |
| `Endpoints.RenumberFitsVg320Card` | swap_voice_gateway.py:300-304 | indices 0..23 on subunits 0 and 1 get pairwise distinct numbers below the 48 ports of the VG320 replacement card |
| `Endpoints.PortNameRoundTrip` | swap_voice_gateway.py:330 | the port name reads back as exactly the unit, subunit, port number and domain it was built from |
| `Endpoints.PortNamesDistinct` | swap_voice_gateway.py:330 | two different (unit, subunit, port, domain) addresses never get the same name |
| `Endpoints.MappedPortName` | swap_voice_gateway.py:330 | under a mapped gateway every port is named "AALN/S0/SU1/" + port + "@new-" + entered name |
| `Endpoints.EndpointFromSource` | swap_voice_gateway.py:300-378 | the request carries over dn pattern, partition, display, e164Mask, device pool, location and description; its index is the renumbered port; its name is exactly PortName(unit, subunit, index, new domain) and reads back to those parts; product, class, protocol, protocolSide, trunkSelectionOrder and every port setting (portNumber 1, callerIdEnable false, expectedDigits 10, sigDigits 10/false, smdiPortNumber 2048, trunk POTS/Bothways/ONS, pads NoDbPadding, timers 200/0/100/1000/0/0, ...) are the fixed defaults |
| `Endpoints.EndpointIgnoresOldName` | swap_voice_gateway.py:306-330 | the request depends only on subunit, index and the carried fields: the endpoint's old name (read at line 306) never reaches it |
| `Migration.MigratePorts` | swap_voice_gateway.py:293-390 | the loop over ports, with lookup, renumbering, request building, creation and stop-at-first-fault, yields exactly the specified loop outcome |
| `Migration.PortsOutcomeShape` | swap_voice_gateway.py:293-390 | the loop completes iff every port was created; creation k comes from port k's lookup, logged as lookup then create, in order; a fault at port k leaves exactly the k earlier creations |
| `Migration.SwapVoiceGateway` | swap_voice_gateway.py:114-390 | the step-by-step script (three separate model tests, reassigned domain and gateway) makes the same calls and ends the same way as the specified run |
| `Migration.GatewayLookupFaultStops` | swap_voice_gateway.py:117-122 | a failed gateway lookup ends the run with status 1 and no further call |
| `Migration.SetupCallsMade` | swap_voice_gateway.py:145-275 | the second call is the member query on the raw uuid; the third submits the mapped or fetched gateway with vendorConfig ModemPassthrough=Disable then T38FaxRelay=Enable; a failed query ends the run with status 1 |
| `Migration.NoPortsNoEndpointCalls` | swap_voice_gateway.py:154-293 | with zero ports no endpoint call is made and the run completes with status 0 |
| `Migration.UnsupportedModelStopsAtFirstPort` | swap_voice_gateway.py:176-330 | an unmapped model submits the fetched record; with ports it looks up the first port, then stops (NameError on `unit` if the lookup succeeded) with status 1 and no endpoint created |
| `Migration.PortsCreatedInOrder` | swap_voice_gateway.py:293-390 | a run reaching the loop completes iff all ports were created; then it made 3 + 2n calls, port k's lookup then its creation with the endpoint built under unit 0, subunit 1 and "new-" + name; a stopped run exits 1 with fewer creations than ports |

## Left out

- The zeep/`requests` client, its transport, settings, TLS toggle and dotenv credentials (lines 25-104) are not modelled. They are network set-up and foreign libraries.
- The logging plugin, the DEBUG/VERBOSE printing and the `input()` pauses are console output only. They are left out.
- The operator's `input()` prompt is the `entered` parameter, and `sys.exit(1)` is an `Aborted` outcome with exit status 1.
- The remote operations are not executed. Each answer is a function of the request. Only endpoint creation may also depend on earlier creations. Any other server state (for example a lookup seeing the new gateway) is not modelled.
- The lxml `Element` objects and the `XVendorConfig` wrapper are not modelled. vendorConfig is a list of (name, text) pairs.
- The `int(...)` coercion of the endpoint index at line 302 is not modelled. The index is an int throughout.
- PortQuery.RawUuid: lower-cases ASCII letters only. Python's `str.lower` also maps non-ASCII letters, which AXL uuids do not contain.
- The response records are typed. The `KeyError`/`TypeError` a missing or `None` field would raise in the script (for example a `None` device pool) is not modelled. How the service encodes an empty query answer is not modelled either; the model gets the rows as a possibly empty list.
- The 10-second transport timeout is not modelled separately. The model treats a timed-out call as a failed answer. The script does not catch a timeout (it is not a zeep `Fault`) and dies with an uncaught exception, so the exit status (1) is the same, but the message differs.
