# Manual-seal BABE consensus-data provider, modelled in Dafny

This project models the BABE consensus-data provider of Substrate's manual-seal block
producer (`client/consensus/manual-seal/src/consensus/babe.rs`). It has two parts.

- **The mocked slot clock** (`SlotTimestampProvider`), in `slot_clock.dfy`. A 64-bit
  counter starts at the wall-clock time. Each time inherent data is collected, it hands
  out its current value as the timestamp inherent and advances by one slot duration with
  a wrapping `fetch_add`. The class keeps the counter as its `time` field. A ghost call
  count ties that field to the specification function `TimestampAt(t0, d, n)`. Lemmas
  prove what the sequence of timestamps looks like: `t0 + n*d` modulo 2^64, exactly `d`
  apart and strictly increasing while there is no wrap-around, and one slot further on
  each call.
- **The digest provider** (`BabeConsensusDataProvider`), in `babe_provider.dfy`.
  `CreateDigest` reads the slot inherent, looks up the epoch descriptor for the child of
  the parent at that slot, and resolves it to a viable epoch. It then tries to claim the
  slot. A successful claim gives a one-entry log. A failed claim gives a two-entry fallback
  log: a plain secondary pre-digest with authority index 0, and a next-epoch announcement.
  That announcement names the development key Alice with weight 1000 as the only
  authority and copies the current epoch's randomness. `AppendBlockImport` re-reads the
  slot and re-resolves the descriptor. It stores the descriptor under `INTERMEDIATE_KEY`
  in the import parameters' intermediates map and changes nothing else.

The provider never changes its own fields, so it is a datatype. Its collaborators are
function-typed fields: the epoch-tree descendant query, `viable_epoch`, and the
slot-claiming algorithm applied with the keystore. Each field's result type is the `Result`
or `Option` the real collaborator returns. `inherents.dfy` models the inherent data: a map
from 8-byte identifiers to values, filled in place by providers. `wrappers.dfy` holds
`Option`, `Result` and `Outcome`.

Digest items carry typed payloads in place of SCALE-encoded bytes. The digest readers
`BabePreDigests` and `NextEpochAnnouncements` extract what block import looks for in a
header. `CreateDigest`'s contract is stated through them: a successful digest holds exactly
one BABE pre-digest, first, followed by at most one next-epoch announcement.

Three behaviours of the code that the model keeps:
- Storing the timestamp can fail when the inherent data already holds a timestamp. The
  counter has already advanced by then.
- The clock wraps around at 2^64, so "never reused" holds only until the counter wraps.
- `append_block_import` needs no viable epoch. It can succeed where `create_digest` fails
  with an invalid authority set.

## Model

| member | source | states |
|---|---|---|
| `SlotClock.WrappingAdd` | client/consensus/manual-seal/src/consensus/babe.rs:212 | the counter advance is addition modulo 2^64: exact when the sum fits, smaller than the old value when it wraps |
| `SlotClock.TimestampAtIsModular` | client/consensus/manual-seal/src/consensus/babe.rs:199-212 | after n advances from `t0` the counter is `(t0 + n*d) mod 2^64` |
| `SlotClock.TimestampAtNoWrap` | client/consensus/manual-seal/src/consensus/babe.rs:210-214 | without wrap-around the (n+1)-th call hands out `t0 + n*d` |
| `SlotClock.ConsecutiveTimestamps` | client/consensus/manual-seal/src/consensus/babe.rs:212 | without wrap-around consecutive timestamps are exactly one slot duration apart |
| `SlotClock.TimestampsStrictlyIncrease` | client/consensus/manual-seal/src/consensus/babe.rs:210-214 | with a positive slot duration and no wrap-around, a later call hands out a strictly larger timestamp |
| `SlotClock.SlotAdvancesByOne` | client/consensus/manual-seal/src/consensus/babe.rs:185-186 | the slot of the (n+1)-th timestamp (timestamp divided by slot duration) is the start slot plus n, so every block lands in the next slot |
| `SlotClock.SixSecondSlots` | client/consensus/manual-seal/src/consensus/babe.rs:210-214 | with 6000 ms slots the first three calls hand out t0, t0 + 6000, t0 + 12000 |
| `SlotClock.SlotTimestampProvider.constructor` | client/consensus/manual-seal/src/consensus/babe.rs:198-201 | the counter starts at the given time with the given slot duration and no calls made |
| `SlotClock.NewSlotTimestampProvider` | client/consensus/manual-seal/src/consensus/babe.rs:194-202 | a reading before the UNIX epoch is exactly the case that fails, with `TimeBeforeUnixEpoch`; otherwise the millisecond count is truncated to 64 bits and becomes the start of a fresh provider |
| `SlotClock.SlotTimestampProvider.InherentIdentifier` | client/consensus/manual-seal/src/consensus/babe.rs:206-208 | the identifier is 8 bytes long and differs from the BABE slot identifier; `ProvideInherentData`'s contract names this identifier as the key it writes under |
| `SlotClock.SlotTimestampProvider.ProvideInherentData` | client/consensus/manual-seal/src/consensus/babe.rs:210-215 | the value written is the pre-increment counter, which is `TimestampAt(start, d, calls)`; the counter advances by `d` modulo 2^64 whether or not the write succeeds; the inherent data gains exactly that entry under `InherentIdentifier()`, or is unchanged and an error returned when that identifier is already present |
| `Inherents.InherentData.PutData` | client/consensus/manual-seal/src/consensus/babe.rs:213 | a new identifier is added with its value; an identifier already present is refused and nothing changes |
| `BabeProvider.CreateDigest` | client/consensus/manual-seal/src/consensus/babe.rs:103-156 | a missing slot is an inherent error; the digest succeeds exactly when a descriptor is found and has a viable epoch; a successful digest has one or two entries, the first a BABE pre-runtime item, exactly one BABE pre-digest, and every other entry a next-epoch announcement |
| `BabeProvider.ClaimedDigest` | client/consensus/manual-seal/src/consensus/babe.rs:128-131 | when the claim succeeds the digest is the single pre-runtime entry holding the claim's pre-digest, with no announcement |
| `BabeProvider.FallbackDigest` | client/consensus/manual-seal/src/consensus/babe.rs:132-152 | when the claim fails the digest is `PreRuntime(BABE, SecondaryPlain{slot, 0})` then one BABE next-epoch announcement, whose only authority is Alice with weight 1000 and whose randomness is the current epoch's |
| `BabeProvider.TwoEntriesIffFallback` | client/consensus/manual-seal/src/consensus/babe.rs:128-153 | once the epoch is resolved, the digest has two entries exactly when the claim failed |
| `BabeProvider.DigestFailsWithoutEpoch` | client/consensus/manual-seal/src/consensus/babe.rs:106-125 | no descriptor, or a descriptor with no viable epoch, fails with an invalid authority set; a failing lookup fails with "failed to fetch epoch_descriptor: " and the lookup's message |
| `BabeProvider.DigestAndImportAgree` | client/consensus/manual-seal/src/consensus/babe.rs:164-174 | on the same epoch-tree snapshot both operations resolve the same slot and descriptor and fail for the same reasons, differing only in the lookup-error message; a successful digest implies import succeeds with the descriptor it used |
| `BabeProvider.ImportFailsWithoutDescriptor` | client/consensus/manual-seal/src/consensus/babe.rs:164-174 | the resolution run by import fails with an inherent error when the slot is missing, with an invalid authority set when no descriptor is found, and with "failed to fetch epoch data: " and the lookup's message when the lookup fails |
| `BabeProvider.AppendBlockImport` | client/consensus/manual-seal/src/consensus/babe.rs:158-182 | a missing slot returns an inherent error, no descriptor returns an invalid authority set, and a failed lookup returns "failed to fetch epoch data: " with the lookup's message, each leaving the map untouched; on success `intermediates[INTERMEDIATE_KEY]` becomes the found descriptor and every other key is unchanged; no other field of the import parameters is modified |

## Left out

- `SystemTime::now()` is not modelled: the wall-clock reading is a parameter of `NewSlotTimestampProvider`.
- Atomicity and the `SeqCst` ordering of `fetch_add`, and the epoch-tree lock, are not modelled. The clock is a sequential method and the lock a plain read of an epoch-tree snapshot, so concurrent mutation of the tree between the two operations is not modelled.
- SlotClock.TimestampsStrictlyIncrease: "never reused" is proved only while `t0 + n*d` stays below 2^64, because `fetch_add` wraps and the model keeps the wrap.
- SlotClock.SlotAdvancesByOne: the division of the timestamp by the slot duration happens in BABE's own slot-inherent provider. That provider is registered at client/consensus/manual-seal/src/consensus/babe.rs:84, but its code is not part of this model.
- The epoch tree's internals are not modelled: `epoch_descriptor_for_child_of`, `descendent_query`, `viable_epoch` and `Epoch::genesis` are opaque function fields. The genesis bootstrap, which synthesises epoch zero from the configuration, is therefore not modelled; `viable_epoch` only receives the configuration.
- `authorship::claim_slot` and the keystore are not modelled: they are VRF cryptography in another crate. The claim is an opaque function field, and the key pair it returns next to the pre-digest is dropped because the core ignores it.
- SCALE encoding is not modelled; digest items carry typed payloads. `CompatibleDigestItem::babe_pre_digest` is taken to be a pre-runtime item under the BABE engine id.
- SlotClock.NewSlotTimestampProvider: the text of the clock error that the source formats into its string error is not modelled; the failure is the typed `TimeBeforeUnixEpoch`.
- `error_to_string` is not modelled: it decodes the timestamp crate's error type, whose code is not part of this model.
- A malformed slot or timestamp payload is not modelled. Inherent values are typed 64-bit integers, so only a missing inherent is an error.
- `BabeConsensusDataProvider::new` is not modelled: fetching the runtime configuration and registering the inherent providers are runtime plumbing.
- `log::info!`, `Box<dyn Any>` and `Cow` are not modelled. The intermediates map holds a closed sum of typed values.
- Consensus-log and digest-item variants the core never emits (the configuration-change log, seals and others) are not modelled. The import parameters have two representative fields besides `intermediates`.
- The constants "timstap0", "babeslot", "BABE", "babe1" and Alice's public key come from crates that are not part of this model. So does the rule of `InherentData::put_data` that refuses a duplicate identifier.
