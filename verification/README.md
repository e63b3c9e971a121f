# Secure trace of drill (ldns)

This project models the secure trace of `drill`, the DNS troubleshooting
tool shipped with ldns. Given a query name, the trace first installs the root
servers, probes the local resolver for the root NS set and sends the query
itself to the root servers. It then walks the label chain of the name, one
zone cut per counted label. The walk starts at the least specific entry, the
name chopped `labelCount - 1` times, and ends at the name itself. That first
entry is the root only when the library's label count includes the root
label. At each zone cut it does three things:

- it asks the caller's local resolver for the cut's NS set;
- it points a non-recursive, DNSSEC-enabled working resolver at that cut's
  nameservers, and at nothing else;
- it asks those nameservers for the DNSKEY set at the cut, the DS set at the
  cut, and the DNSKEY set of the full name, which may come back as a DS
  referral.

What it prints:

- the root probe's reply, or a warning when that reply is empty;
- each cut's NS set followed by a blank line;
- each non-empty DNSKEY, DS or referral DS set, and a blank line per cut;
- an error message when the local resolver fails or a zone cut's nameservers
  cannot be found or installed; a warning when the query brings no packet
  back; nothing when the root hints are refused.

The reply to the query sent to the root servers is never printed. Neither are
the DNSKEY and DS signature lists: they are only collected, across all cuts.

The file also holds three helpers:

- `ds_key_match`, which matches trusted keys against a DS set;
- a generic RRset extractor with its DNSKEY and DS wrappers;
- the packet-fetch wrapper.

The model has five modules:

- `Dns` holds abstract records, reply packets and the library's section
  filters.
- `DsMatch` holds `ds_key_match`.
- `Extract` holds `get_dnssec_rr`, `get_key` and `get_ds`.
- `Labels` holds the label chain of the query name.
- `Trace` holds `get_dnssec_pkt` and `do_secure_trace`: the setup, NS
  discovery at a cut, the three DNSSEC sub-queries and the walk.

Some things are passed in as values rather than modelled:

- The network is an oracle, `Network.send`, that returns a reply or nothing.
  `get_dnssec_pkt` is that oracle applied to the working resolver with class
  IN.
- Address lookups of NS host names come from the `Network.addrsByName`
  oracle.
- Library behaviour with no source in this model is passed in as functions:
  - DS comparison;
  - acceptance by the RR-set push;
  - label counting;
  - left chop;
  - whether installing a nameserver list succeeds.
- Output is an append-only event log. It records queries sent, address
  lookups, prints, the warning and the abort message. The contracts speak
  of two views of it:
  - `Queries`, the queries in order;
  - `Output`, what is written to the screen in order: prints, the warning
    and the abort message.
- A NULL record list is the empty sequence. The library's section filters
  return NULL when nothing matches.

## Model

| member | source | states |
|---|---|---|
| DsMatch.DsKeyMatch | drill/securetrace.c:21-60 | NULL for either input gives NULL. Otherwise the result is non-NULL exactly when some trusted record and some DS record compare equal. Every returned key is a trusted record that matches some DS record, and the keys appear in match order. The result equals the reference fold of the set pushes over all matching pairs. |
| DsMatch.PushRow | drill/securetrace.c:45-53 | The inner loop over the DS records pushes the trusted record once per DS record it matches, continuing the pushes made so far. It sets the match flag exactly when there has been any match. |
| DsMatch.MatchesNonEmptyIff | drill/securetrace.c:43-59 | The matching pairs, taken in trusted-then-DS loop order, are non-empty exactly when some pair compares equal. This is the `match` flag that decides between keys and NULL. |
| DsMatch.MatchesMembers | drill/securetrace.c:43-52 | A record is among the matches exactly when it is a trusted record that compares equal to some DS record. |
| DsMatch.PushAllIsSubsequence | drill/securetrace.c:50-51 | Pushing records one by one with the RR-set push keeps a subsequence of what was offered: nothing is invented and the order is kept. |
| DsMatch.AcceptingPushKeepsEveryMatch | drill/securetrace.c:48-52 | A push that accepts every record returns exactly what it was offered. The matcher then holds one entry per matching pair, duplicates included. |
| DsMatch.SingleMatchYieldsThatRecord | drill/securetrace.c:43-59 | When exactly one pair matches and the empty list accepts that trusted record, the result is exactly that record. |
| Extract.ByOwner | drill/securetrace.c:95-98 | A record is found by owner exactly when it is in the answer section with that owner and type. A signature is found exactly when it is an answer-section RRSIG with that owner. |
| Extract.ByReferral | drill/securetrace.c:99-104 | A record is found for a referral exactly when it is in the authority section with that type. A signature is found exactly when it is an authority-section RRSIG. |
| Extract.FoundIn | drill/securetrace.c:86-104 | What an extraction finds: nothing without a reply or for an NXDOMAIN or NODATA reply. Otherwise a record or signature is found exactly when it has the type asked for, or is an RRSIG, and sits in the answer section with the given owner, or in the authority section when no owner is given. |
| Extract.GetDnssecRr | drill/securetrace.c:78-114 | A missing packet gives UNKNOWN and an NXDOMAIN or NODATA reply gives its own type; in both cases the caller's lists are untouched. Any other reply gives ANSWER. The signature list becomes the old list followed by exactly the signatures found. On ANSWER the record list is exactly the records found: from the answer section by owner when an owner is given, from the authority section otherwise. |
| Extract.GetKey | drill/securetrace.c:119-123 | On ANSWER every key returned is a DNSKEY owned by the apex. The signature list keeps its old entries as a prefix, and every appended entry is an RRSIG owned by the apex. |
| Extract.GetDs | drill/securetrace.c:128-132 | On ANSWER every record returned is a DS, owned by the owner name when one is given. The signature list keeps its prefix and gains only RRSIGs, owned by the owner name when one is given. |
| Extract.OwnerPathReadsOnlyAnswer | drill/securetrace.c:95-98 | With an owner name, two replies with the same type and answer section give the same extraction. |
| Extract.ReferralPathReadsOnlyAuthority | drill/securetrace.c:99-104 | Without an owner name, two replies with the same type and authority section give the same extraction. |
| Extract.MisplacedRecordsAreNotFound | drill/securetrace.c:95-104 | Records placed only in the section a lookup does not read yield an empty set and no signatures. |
| Labels.LabelChain | drill/securetrace.c:221-230 | The chain has one entry per counted label. Entry 0 is the name, and each later entry is the left chop of the one before, i.e. the name chopped that many times. |
| Labels.WrittenLabelSlots | drill/securetrace.c:223-230 | The array slots the code writes: slot 0 always, then slots 1 up to count - 1. |
| Labels.WrittenSlotsInBoundsIff | drill/securetrace.c:223-227 | Every written slot lies inside the `labels_count`-entry allocation exactly when the count is positive. |
| Trace.NsTargetsSpec | drill/securetrace.c:256-260 | The host names to look up are the first rdata fields of the leading NS records, in order. Collection stops exactly at the first record without one. |
| Trace.GatherMembers | drill/securetrace.c:256-264 | An address is gathered exactly when the local resolver returns it for one of the host names. |
| Trace.NsRecordsSpec | drill/securetrace.c:243-249 | The NS set holds only NS records. It is exactly the authority section's NS records when there are any, and exactly the answer section's NS records otherwise. |
| Trace.RefreshServersCases | drill/securetrace.c:239-296 | With AAAA or A glue, nothing is looked up. It fails, with "adding new nameservers", exactly when a non-empty AAAA or A list is refused; otherwise the servers are the AAAA glue followed by the A glue. Without glue, the NS host names are looked up. No addresses aborts with no-nameserver-address; a refused list aborts with add-failed; otherwise the addresses are the servers. |
| Trace.InstalledServersComeFromThisCut | drill/securetrace.c:251-296 | Every installed server is A or AAAA glue of this cut's reply, or an address of one of this cut's NS host names. Nothing from an earlier cut survives. |
| Trace.CutWith | drill/securetrace.c:251-326 | Given the cut's NS discovery, the cut fails exactly when discovery failed, for that reason. A failed cut adds only the NS query to the queries and only the failure to the output. Otherwise the discovered servers are installed and the DNSKEY and DS lists are cleared. The queries gain the NS query and the three sub-queries. The output gains the NS set, a blank line, each non-empty set the sub-queries find and a blank line. The signature lists gain exactly the signatures found. |
| Trace.SubQueries | drill/securetrace.c:301-324 | Called, as in the trace, with the per-cut DNSKEY and DS lists empty (lines 164-165, 311, 319 and 324). Sends DNSKEY and DS at the cut and DNSKEY at the full name, in that order, to the cut's servers. The DNSKEY and DS lists end up cleared. The output gains the DNSKEY set found at the cut, the DS set found at the cut and the DS set found in the referral, each only when non-empty and in that order, then a blank line. The key signatures gain exactly the RRSIGs owned by the cut in the DNSKEY answer. The DS signatures gain exactly those of the DS answer, then the authority-section RRSIGs of the referral. |
| Trace.CutStep | drill/securetrace.c:237-326 | A zone cut fails exactly when its NS discovery fails, and then for that reason. After a failure the only new query is the local NS query and the only new output is the failure. Otherwise the installed servers are that discovery's servers and the DNSKEY and DS lists are cleared. The new queries are the NS query and the three sub-queries. The new output and signatures are exactly the cut's report: the NS set, a blank line, the non-empty sets found and a blank line; then the signatures found. |
| Trace.Walk | drill/securetrace.c:235-327 | Cuts are visited from the least specific label to the full name. The walk stops at the first cut whose discovery fails, and every earlier cut succeeded. Finishing means every label was visited, and the servers are those of the last cut. The queries, the output and both signature lists are then exactly the visited cuts' reports joined in order. An abort leaves no servers installed. It leaves the earlier cuts' reports, then the failing cut's NS query among the queries and the failure as the last output. Every key signature is an RRSIG owned by a visited cut. |
| Trace.SecureTrace | drill/securetrace.c:134-329 | Each of the three setup aborts happens exactly when its condition holds: root hints refused, local resolver silent, no packet for the query. Refused root hints abort with an empty log. The other two setup aborts have exactly the log of the steps taken and the failure. After setup the only aborts are cut aborts. Finishing visits one cut per counted label, ending at the name. It then leaves the last cut's servers installed. Its queries are the root NS probe, the query at the root servers and each cut's queries. Its output is the probe report and each cut's output. Its signatures are exactly those the cuts found. A cut abort leaves the same for the cuts before it, then the failing NS query and the failure. |
| Trace.Prelude | drill/securetrace.c:195-219 | Refused root hints fail with an empty log. A silent local resolver fails after the probe query. A missing reply to the query fails after the probe query, the probe report and the query. Each of these happens exactly when its condition holds. Otherwise the root servers are installed, the queries are the probe and the query, and the output is the probe report: a warning for an empty reply, the packet otherwise. |

## Left out

- Memory allocation, and every allocation-failure early return (lines 168-176, 34-37, 223-226), is left out. Freeing is left out too.
- The transport settings copied from the local resolver to the working resolver (lines 180-193) are left out: the network oracle does not model them.
- Print formats are left out. A print appears in the log as the record set or packet shown.
- Trace.GetDnssecPkt (lines 62-72) has no contract of its own. It is the network oracle applied to the working resolver's servers with class IN, and the contracts of its callers state what it sends.
- The internals of `ldns_rr_compare_ds`, `ldns_rr_set_push_rr`, `ldns_dname_label_count`, `ldns_dname_left_chop` and `ldns_resolver_push_nameserver_rr_list` are library code and not part of this model. Each is a parameter.
- DsMatch.DsKeyMatch: it does not state that the result holds no duplicates. The comment at line 50 says only unique records are pushed, but whether `ldns_rr_set_push_rr` refuses a duplicate is library behaviour. The push's acceptance is a parameter, so the model does not commit to it.
- Extract.GetDnssecRr: the cases where the caller passes NULL for the list out-pointers (lines 107-112) are not modelled. Every caller passes addresses.
- Trace.SecureTrace: a failed send counts as "no packet". What the library leaves in the caller's packet variable after a failed send is library behaviour and not part of this model. The model therefore does not read a stale earlier packet at line 216 or line 239.
- Trace.Prelude: when the root probe fails, the warning at lines 202-204 is skipped and the log is the probe and the failure only. Trace.SecureTrace inherits this log.
- Trace.ProbeReport: the empty-packet test of line 202 looks at the three record sections and not at the question section.
- Trace.RefreshServers: when installing a list fails part-way, the servers already installed are not modelled. The trace aborts at that point anyway.
- Trace.Walk: after a cut abort the working resolver is taken to hold no servers, because line 252 removed them all. Glue installed before a later list was refused (lines 281-296) is not modelled.
- Trace.CutWith: the address lookups of the fallback (lines 256-264) are logged as events, but no contract states them. The contracts speak of the queries sent to name servers and of the output only.
- Trace.SecureTrace: `ldns_dname_left_chop` returning NULL is not modelled. Chopping is total.
- The `trusted_keys` argument of `do_secure_trace` is unused by the code, and the function always returns NULL. The model returns the outcome and the log instead.
- The network oracle is deterministic: the same question to the same target always gets the same reply.
- run-test6.c is a stand-alone resolver test program and is not part of this model.

Behaviour of the code worth noting:

- The signature lists are created once and never cleared between zone cuts. Only the DNSKEY and DS lists are reset.
- An NXDOMAIN or NODATA reply leaves the caller's record list as it was, rather than emptying it.
- When the authority section has no NS records but glue is present, the cut proceeds with the glue. When there is no glue, the fallback looks up only this cut's NS names; addresses from an earlier cut are never reused.
- AAAA and A glue are both installed, AAAA first, but only on the glue path. The lookup fallback runs only when there is no glue at all.
- Signatures are selected by RRSIG owner name, not by the type they cover.

## Findings

| source | as written | input that shows it | evidently intended | confidence | as-written member | corrected member |
|---|---|---|---|---|---|---|
| drill/securetrace.c:221-227 | `labels` is allocated with `labels_count` entries, and `labels[0] = name` is written unconditionally | a query name for which `ldns_dname_label_count` returns 0, so slot 0 is written into a zero-length allocation | the chain should hold exactly `labels_count` entries, with none written when the count is 0 | low, not executed | Labels.WrittenSlotsInBoundsIff | Labels.LabelChain |
