# Inscriptions, verified

A Dafny model of the Metaplex Inscription program and of the chunked upload that its command line client runs
against it, with proofs.

An *inscription* is a pair of accounts: a main data account, which is a key that signed or derives from a token
mint, and a metadata account derived from it. The metadata holds a variable-length Borsh record: the rank, the
update authorities, the mint and a list of tagged child data accounts. Ranks come from 32 counters, the shards.
Eleven instructions create, write, resize, hand over and close these accounts. Each of them checks only part of
what it relies on, so what users count on is a property of the whole machine, and that is what is proved here:
a rank is never issued twice, a pair lives and dies together, listed tags are exactly the live children, records
fill their accounts, an inscription without authorities is immutable, and the bytes refine a plain registry.

## How the model is put together

| file | content |
|---|---|
| Basics, State, Codec | bytes, the records of state.rs, their Borsh reader and writer, and the round trips |
| Layout, Text | the records byte by byte, and the byte strings that are UTF-8 |
| Addresses, Placement | seed layouts, derivation, what keeps the kinds of address apart, and what addresses alone ensure |
| Accounts, Program | the account store as a value, and what each instruction checks and leaves |
| Ledger | the processors as methods of a class that changes its accounts in place, proved against Program |
| Invariant, Preservation, Frames | what holds of every reachable world, that each step keeps it, and what each may touch |
| Ranks, Runs, Lifecycles, Authority | ranks, whole runs, lifecycles, immutability |
| Exceptions, Handover, Exposure, Collapse | the exact limits of these, when bytes pass for records or keys are handed over |
| Witnesses, Shadows | runs from an empty ledger that reach these limits |
| Effects, Refusals | what each instruction leaves, spelled out, and the first of its checks to fail, in any world |
| Registry, Success | the registry that the bytes refine, and exactly when an instruction succeeds |
| Chunks, Upload, Bystanders | cutting, comparing, allocating and writing, run against the class in Ledger, alone and among others |

A ledger at one moment is a `World`: the accounts, a ghost role for every account of the program, and the ghost
list of ranks issued so far. A run is a sequence of `Step`s: an instruction, or a change that someone else makes
to an account that is not the program's, up to handing it to the program with zero bytes or draining it.

There are two kinds of run. A `LawfulRun` is anything that the runtime allows. In all of them every account is
`Placed` at an address of its role, and the account of issued ranks (`Ranked`), the shards, the ranks of
inscriptions that began with nothing below them, and the immutability of inscriptions whose own mint is not handed
over are safe. A `FairRun` meets one condition more: the program has nothing at the metadata address of a key
that is handed to it. All it could have there is the data of a mint that was closed since. Fair runs keep the
full invariant `Inv`, from which lifecycles and the refinement follow; `Reachable` worlds are those that a fair
run reaches from a ledger on which the program owns nothing, `LawfullyReachable` ones those of lawful runs.

What the model takes as given:

- A failing instruction changes nothing. `Ledger.Process` undoes what its processor did before it failed.
- Resizing keeps the common prefix, leaves the new bytes unspecified (`Runtime.fill`), may fail
  (`Runtime.grants`), and fails for growth beyond 10240 bytes. Closing empties an account, which then no longer
  exists; an account that does not exist is taken for an empty one of the system program.
- `Chain.hash` and `Chain.bump` stand for address derivation. `Chain.Sound` asks that no two of the finitely
  many seed strings in play (`Chain.known`) collide, and that what they derive never signs. That the three seed
  layouts are injective and disjoint is proved, not assumed, and `Witnesses.StagesExist` gives sound
  chains with keys, a mint and a tag.
- `Lawful` steps are what the runtime sees to: an instruction hashes known seeds, derived addresses do not sign,
  others change no account of the program, no derived address becomes a token mint, and what others hand to the
  program is zeroed and signed for.
- Fairness is not assumed where it can be spared, and where it cannot the failure is exact.
  `Handovers.HandoverExactly` proves its condition necessary and sufficient for the invariant and for pairs to stay
  pairs. Beyond it, `Collapse.FallsExactly` says of whole runs exactly when the data of an inscription without
  authorities can be closed, `Exposure.RankChangesExactly` when a live rank can change, and
  `Exposure.RecordChangesExactly` when metadata without authorities can. Shadows reaches each from an empty ledger.
- `Chain.legacy` admits mint inscriptions from before the mint was recorded. A ledger that starts without
  accounts of the program cannot have them; statements about SetMint cover both.

Beside the instructions stand two descriptions of them that call none of their parts. `Refusals.Checks` lists, for each
instruction, its conditions with their errors; `Refusals.RefusedExactly` proves that in every world an instruction
fails with the first that fails and otherwise succeeds. The lemmas of Effects give, for each that succeeds, the
accounts it leaves, with records and lists written out.

Where the project's description and its code differ, the model follows the code. The description has
inscriptions ranked globally by minting order (README.md of the repository, line 14); the code orders them
within a shard only. `Runs.MintingOrder` says exactly when two ranks follow their order in time, and
`Witnesses.LaterButLower` is a run in which they do not. The test suite makes an inscription immutable by
removing its last authority; `Exceptions` proves exactly which accounts can change even then, and
`Witnesses.FrozenButOpen` reaches one. The commands upload to an account that is not valid yet;
`Upload.EnsureInscribed` proves that this makes it valid if and only if it was no longer than the input.

## Model

| member | source | states |
|---|---|---|
| Codec.DecodeEncode | programs/inscription/src/state.rs:35-48 | Reading what was written gives back the record, for every record whose lists Borsh can carry. |
| Codec.EncodeDecode | programs/inscription/src/processor/close.rs:31-33 | Any bytes that `try_from_slice` accepts are the one encoding of the record it returns: nothing is left over or normalised. |
| Codec.ShardDecodeEncode | programs/inscription/src/state.rs:67-74 | The same round trip for shards, which always take 11 bytes. |
| Codec.ShardEncodeDecode | programs/inscription/src/processor/initialize.rs:82-83 | Accepted shard bytes are the encoding of the shard read. |
| Codec.FixedOffsets | clients/js/src/generated/accounts/inscriptionMetadata.ts:184-198 | The offsets of the client's account queries: byte 0 is 0, 1, 2 or 3 for the four keys, the account starts at 1, the bump is at 33, byte 34 is 0, 1 or 2 for the three types, the rank is in bytes 35 to 42, and byte 43 is 1 with an inscription bump and 0 without. |
| Layout.LittleEndian | programs/inscription/src/state.rs:40-40 | Numbers of four and eight bytes are the sum of their bytes weighted by 1, 256, 65536 and so on. |
| Layout.ShardBytes | programs/inscription/src/state.rs:69-74 | A shard's eleven bytes: key as 0 to 3, bump, number, and the count with its eight weights. |
| Layout.EntryBytes | programs/inscription/src/state.rs:29-33 | An association entry: the tag's length with its four weights, the tag, the bump, and the type as 0, 1 or 2. |
| Layout.EntriesInOrder | programs/inscription/src/state.rs:44-44 | Entry i of a list lies where the entries before it end, each taking six bytes and its tag. |
| Layout.RecordBytes | programs/inscription/src/state.rs:37-48 | The whole metadata record from the rank on: option bytes 0 and 1, counts and keys at their places in order, the mint, and the seven bytes of padding. |
| Text.Utf8Exactly | programs/inscription/src/state.rs:30-30 | A tag's bytes are accepted if and only if they encode a text of Unicode scalars, by the bit distribution of Table 3-6 of the Unicode Standard. |
| Addresses.MetadataSeedsSpelled | programs/inscription/src/state.rs:5-5 | Metadata seeds are the letters of "Inscription", the program's key and the account's key. |
| Addresses.AssociatedSeedsSpelled | programs/inscription/src/state.rs:5-6 | Associated seeds are the letters of "InscriptionAssociation", the tag and the metadata key. |
| Addresses.ShardSeedsSpelled | programs/inscription/src/state.rs:5-8 | Shard seeds are the letters of "InscriptionShard", the program's key and the number as one byte. |
| Addresses.MetadataSeedsInjective | programs/inscription/src/processor/initialize.rs:31-40 | Metadata seeds determine the key they were made from. |
| Addresses.AssociatedSeedsInjective | programs/inscription/src/processor/initialize_associated_inscription.rs:70-81 | Concatenated without a delimiter, tag and metadata key can still be told from the seeds. |
| Addresses.ShardSeedsInjective | programs/inscription/src/processor/create_shard.rs:35-45 | Shard seeds determine the number. |
| Addresses.LayoutsDisjoint | programs/inscription/src/lib.rs:7-7 | No two layouts ever give the same seeds, also in the one case of equal length, a 21-byte tag. |
| Addresses.AddressesDisjoint | programs/inscription/src/processor/initialize_from_mint.rs:55-77 | On a sound chain the three kinds of derived address never meet, and none of them signs. |
| Ledgers.Ledger.StoreRecord | programs/inscription/src/processor/remove_authority.rs:55-74 | Serialise, resize and copy leave exactly the record in the account, or fail with the account's new size refused. |
| Ledgers.Ledger.Enrol | programs/inscription/src/processor/initialize.rs:74-157 | The shared second half of both initialisations: shard checks, rank, count plus one, metadata account, in that order and with those errors. |
| Ledgers.Ledger.Initialize | programs/inscription/src/processor/initialize.rs:14-157 | The processor leaves the specified world or fails with the specified error. |
| Ledgers.Ledger.InitializeFromMint | programs/inscription/src/processor/initialize_from_mint.rs:18-203 | The same, with the two chained derivations and the token metadata checks. |
| Ledgers.Ledger.Close | programs/inscription/src/processor/close.rs:16-151 | The same: with a tag the entry goes, the metadata shrinks and the child closes; without, a pair that has no children closes. |
| Ledgers.Ledger.CheckData | programs/inscription/src/processor/write_data.rs:20-108 | The shared checks, in the order of the source, with the error of the first one that fails. |
| Ledgers.Ledger.WriteData | programs/inscription/src/processor/write_data.rs:14-134 | Grow if needed and copy at the offset is the splice of the old bytes; the copy never runs past the account. |
| Ledgers.CopyIsSplice | programs/inscription/src/processor/write_data.rs:110-131 | Whatever the resize put into the new bytes, resize and copy give length max(old, offset + len), the value at its place, and the rest as it was. |
| Ledgers.Ledger.ClearData | programs/inscription/src/processor/clear_data.rs:11-119 | Empties the account, with the early success on an empty one that no later check precedes. |
| Ledgers.Ledger.Allocate | programs/inscription/src/processor/allocate.rs:15-127 | Resizes to the lesser of the target and the old size plus 10240. |
| Ledgers.Ledger.AddAuthority | programs/inscription/src/processor/add_authority.rs:14-86 | Pushes a key that is not listed and rewrites the record. |
| Ledgers.Ledger.RemoveAuthority | programs/inscription/src/processor/remove_authority.rs:13-77 | Swap-removes the signer's first occurrence and rewrites the record. |
| Ledgers.Ledger.CreateShard | programs/inscription/src/processor/create_shard.rs:14-79 | Creates a vacant shard below 32 at its address with count zero. |
| Ledgers.Ledger.InitializeAssociatedInscription | programs/inscription/src/processor/initialize_associated_inscription.rs:19-150 | Creates the child account and appends its entry, or does neither. |
| Ledgers.Ledger.SetMint | programs/inscription/src/processor/set_mint.rs:17-101 | Stores the mint under two derivation checks and without an authority. |
| Ledgers.Ledger.Process | programs/inscription/src/processor/mod.rs:31-84 | Dispatch within a transaction: the whole new ledger on success, the old one and the error on failure, the invariant kept. |
| Effects.VacantExactly | programs/inscription/src/processor/initialize.rs:17-29 | An account to be created is one of the system program without data; one that does not exist is taken for such. |
| Effects.InitializeLeaves | programs/inscription/src/processor/initialize.rs:43-157 | A successful Initialize leaves the ten-field record written out: uninitialised type, rank 32 times the count plus the number, exactly the authority account as list (the payer where none is passed), no entries, no mint, seven zeros; the data account is empty, the shard counts one more, all else is as it was. |
| Effects.InitializeFromMintLeaves | programs/inscription/src/processor/initialize_from_mint.rs:79-203 | The same for a mint: its own key, the mint and the inscription bump recorded. |
| Effects.CreateShardLeaves | programs/inscription/src/processor/create_shard.rs:45-79 | The new shard's four fields, and nothing else changed. |
| Effects.AddAuthorityLeaves | programs/inscription/src/processor/add_authority.rs:52-83 | The new key comes last in the list, and no other field or account changes. |
| Effects.RemoveAuthorityLeaves | programs/inscription/src/processor/remove_authority.rs:47-74 | The list is one shorter; the place of the signer's first occurrence takes the last key, every other place keeps its own, and no other field or account changes. |
| Effects.AssociateLeaves | programs/inscription/src/processor/initialize_associated_inscription.rs:104-147 | The new entry comes last, with its tag, bump and uninitialised type; its account is empty. |
| Effects.SetMintLeaves | programs/inscription/src/processor/set_mint.rs:69-98 | The mint is stored and no other field or account changes. |
| Effects.ClosePairLeaves | programs/inscription/src/processor/close.rs:122-147 | Both accounts cease to exist, and nothing else changes. |
| Effects.CloseChildLeaves | programs/inscription/src/processor/close.rs:92-120 | The child ceases to exist, one entry with its tag goes, the other entries keep their order, and nothing else changes. |
| Effects.WithoutExactly | programs/inscription/src/processor/close.rs:93-97 | In any list, `retain` removes every entry with the tag and the bump, and keeps each other as often as it is there. |
| Effects.WriteDataLeaves | programs/inscription/src/processor/write_data.rs:110-131 | The value is at its offset, the size is the greater of the old one and the value's end, and all else is as it was. |
| Effects.ClearDataLeaves | programs/inscription/src/processor/clear_data.rs:104-119 | The account is empty, and nothing else changes. |
| Effects.AllocateLeaves | programs/inscription/src/processor/allocate.rs:109-124 | The size is the lesser of the target and 10240 more than before, the common part is kept, and nothing else changes. |
| Refusals.RefusedExactly | programs/inscription/src/processor/mod.rs:38-83 | In every world and for every caller, an instruction fails with the error of the first condition of its list that fails, and succeeds if none does. |
| Refusals.SignersNeeded | programs/inscription/src/processor/close.rs:35-50 | A successful authority instruction has the payer among the signers; the authority account, if one is passed, signed too and is in the record's list, and otherwise the payer is in it. |
| Refusals.InitializersSign | programs/inscription/src/processor/initialize_from_mint.rs:79-97 | A successful initialisation is signed by the payer and the authority account, if one is passed, and by the new key or else claimed by the update authority of the mint's token. |
| Preservation.StepInv | programs/inscription/src/processor/mod.rs:38-83 | Every step of every instruction, and of everyone else, accounts handed to the program included, keeps the invariant. |
| Preservation.TargetResolves | programs/inscription/src/processor/write_data.rs:35-86 | The partial checks are enough: a passed derivation check means the two accounts really are an inscription's data and its metadata. |
| Preservation.ShardResolves | programs/inscription/src/processor/initialize.rs:82-102 | An owned account that loads as a shard is that shard. |
| Preservation.SetMintResolves | programs/inscription/src/processor/set_mint.rs:43-65 | The pair SetMint accepts was made from the mint it stores. |
| Preservation.RecordsAreNotShards | programs/inscription/src/processor/add_authority.rs:21-28 | No bytes parse both as a metadata record and as a shard, so the authority instructions can never touch a shard. |
| Preservation.WithoutKeepsOthers | programs/inscription/src/processor/close.rs:93-97 | `retain` on tag and bump removes exactly one tag and keeps all others. |
| Preservation.AddChild | programs/inscription/src/processor/initialize_associated_inscription.rs:104-147 | A child and its entry appear together, and no other account's state is disturbed. |
| Preservation.DropChild | programs/inscription/src/processor/close.rs:92-120 | A child and its entry disappear together. |
| Preservation.DropPair | programs/inscription/src/processor/close.rs:122-147 | A pair without children is closed together. |
| Frames.OnlyWritable | programs/inscription/src/processor/mod.rs:38-83 | An instruction changes no account but those it is passed as writable. |
| Frames.ShardFrame | programs/inscription/src/processor/initialize.rs:112-154 | A shard outlives every instruction; only an initialisation that names it changes it, by one count. |
| Frames.RecordFrame | programs/inscription/src/processor/close.rs:57-148 | A live metadata account is untouched, or rewritten by an authority of it (or given its mint) with its identity kept, or closed with its pair by an authority of it. |
| Frames.DataFrame | programs/inscription/src/processor/write_data.rs:88-108 | A data account changes only by an authority of its metadata, or by one that its own bytes name when they pass for a record. |
| Frames.Newcomers | programs/inscription/src/processor/initialize_associated_inscription.rs:31-36 | Which instruction, with which arguments, can bring an account of which role into being. |
| Frames.HandedFrame | programs/inscription/src/processor/remove_authority.rs:16-41 | No instruction changes an account that others handed to the program: its zeros name no authority, even where they pass for a record. |
| Frames.RolesFixed | programs/inscription/src/processor/initialize.rs:17-29 | An account keeps its role while the program owns it. |
| Frames.StepPlaced | programs/inscription/src/processor/initialize_from_mint.rs:55-77 | Every lawful step leaves every account at an address of its role, and shards intact, whatever keys others hand over. |
| Frames.PlacedRecordFrame | programs/inscription/src/processor/write_data.rs:35-108 | In lawful runs, metadata that cannot be passed for data is untouched, rewritten or closed by its authorities, or given its mint, with its identity kept. |
| Ranks.IssueFailsAtLimit | programs/inscription/src/processor/initialize.rs:104-115 | Issuing overflows exactly from count 2^59 on, and then in the multiplication. |
| Ranks.RanksAreBijective | programs/inscription/src/state.rs:7-7 | Counts below 2^59 and numbers below 32 correspond one to one to all 64-bit ranks. |
| Ranks.NoGapsBelowSmallest | clients/cli/commands/fetch/shard.ts:18-18 | Every rank below 32 times the smallest count was issued. |
| Ranks.StepRanked | programs/inscription/src/processor/initialize.rs:104-115 | Every lawful step keeps the account of ranks: issued exactly {32j + n, j below the count of n}, increasing on each shard, as many as the counts' sum; live ones with nothing below issued and distinct. |
| Ranks.RankKept | programs/inscription/src/processor/set_mint.rs:69-88 | No lawful instruction changes the rank of a metadata account that stays and has nothing below it. |
| Runs.ReachableInv | programs/inscription/src/processor/mod.rs:31-84 | Every world of a fair run from an empty ledger satisfies the invariant and the account of ranks. |
| Runs.RanksAreUnique | clients/cli/commands/fetch/number.ts:24-28 | Over any lawful run, with closes and re-initialisations: no rank is issued twice, the issued set is exactly what the counters say, and live inscriptions with nothing below their metadata share none; in fair runs no live ones do. |
| Runs.NewRankIsNew | programs/inscription/src/processor/initialize.rs:104-115 | In any lawful run, a rank issued now was never issued before, and it is the one in the new record. |
| Runs.RankForLife | clients/cli/commands/fetch/number.ts:15-34 | Over any lawful run, while a metadata account lives its rank is the same, if the program had nothing below it to begin with. |
| Exposure.RankChangesExactly | programs/inscription/src/processor/write_data.rs:71-131 | In a world of lawful runs, a live rank can change if and only if the program owns the account below, whose record has the right bump and a possible signer. |
| Shadows.RankShared | programs/inscription/src/processor/write_data.rs:20-131 | The failing input: a lawful run from an empty ledger after which two live metadata accounts share rank 0, one of which had rank 32. |
| Runs.ShardForever | programs/inscription/src/processor/create_shard.rs:20-51 | A shard stays the program's over any lawful run, with its number and bump, and its count grows by exactly the successful initialisations that name it. |
| Runs.HandedForever | programs/inscription/src/processor/add_authority.rs:20-46 | Over any run, what others handed to the program lies there unchanged. |
| Runs.MintingOrder | programs/inscription/src/processor/initialize.rs:104-110 | Of two initialisations in a lawful run, the earlier has the lower rank if and only if its (count, number) was lower; on one shard always. |
| Witnesses.LaterButLower | programs/inscription/src/processor/initialize.rs:104-110 | A run from an empty ledger in which, of two initialisations one right after the other, the first gets rank 1 and the second rank 0. |
| Lifecycles.PairsLiveTogether | programs/inscription/src/processor/initialize_from_mint.rs:21-77 | Although one formula gives metadata and mint data addresses, main data is live exactly when its derived metadata is live and names it, and an owned derived address without an owned key is that mint's data. |
| Lifecycles.OwnedAddresses | programs/inscription/src/processor/initialize.rs:17-40 | Every account of the program has one role, sits at the address of that role, and its partner is there; those handed over hold zeros and have nothing below them. |
| Lifecycles.TagsMatchChildren | programs/inscription/src/processor/close.rs:92-120 | Listed tags are distinct, and a tag is listed exactly when the program owns the account derived from it; listed tags have 1 to 32 bytes and the right bump. |
| Lifecycles.NoOrphans | programs/inscription/src/processor/close.rs:122-147 | No child outlives its metadata account. |
| Lifecycles.MetadataFillsItsAccount | programs/inscription/src/processor/remove_authority.rs:55-74 | Each live metadata account holds exactly its record's encoding, so it parses; its rank is at bytes 35 to 42 and was issued. |
| Authority.AuthoritiesAreASet | programs/inscription/src/processor/remove_authority.rs:47-74 | The list never has duplicates, so adding and swap-removing are insertion and removal on a set and the signer really loses its authority. |
| Authority.AddThenRemoveSelf | programs/inscription/src/processor/add_authority.rs:52-83 | Adding a key and having that key remove itself restores every byte of the ledger. |
| Authority.PushThenSwapRemove | programs/inscription/src/processor/remove_authority.rs:48-53 | A pushed key sits last, where swap-remove only pops it. |
| Authority.ImmutableForever | clients/js/test/authority.test.ts:71-131 | Without authorities, no lawful continuation that keeps the inscription's own mint back changes the metadata or closes any of the accounts, and each data account that names no possible signer keeps its bytes. |
| Authority.FrozenIsSecure | programs/inscription/src/processor/remove_authority.rs:47-74 | In a kept world, an empty list and a recorded mint are all that this takes. |
| Authority.FairlyKeptBack | programs/inscription/src/processor/initialize_from_mint.rs:55-65 | In fair runs the mint of a secure inscription is never handed over. |
| Collapse.FallsExactly | programs/inscription/src/processor/close.rs:56-148 | Over whole lawful runs: the main data of an inscription without authorities can be closed if and only if it derives from a mint, its bytes pass for the mint's metadata with a possible signer, and every listed entry can be dropped (with room for one more while doing so). |
| Collapse.AjarFalls | programs/inscription/src/processor/close.rs:92-147 | The run that does it: for each listed entry a child is added and closed, and then the account itself. |
| Shadows.ListedEntryFalls | programs/inscription/src/processor/close.rs:92-97 | An inscription reached from an empty ledger whose listed entry keeps the next instruction from closing its data, but not a run. |
| Authority.EmptyListFreezes | programs/inscription/src/processor/initialize_from_mint.rs:112-121 | Where no legacy record can be, the empty list is all that immutability takes. |
| Lifecycles.EmptyListIsFinal | clients/js/test/authority.test.ts:106-130 | In every world reached from a ledger without accounts of the program, the empty list is all that immutability takes. |
| Authority.SetMintIsIdentity | programs/inscription/src/processor/set_mint.rs:43-79 | Without legacy records, SetMint changes nothing at all. |
| Lifecycles.SetMintIsIdle | programs/inscription/src/processor/set_mint.rs:43-79 | In every world reached from a ledger without accounts of the program, a successful SetMint changes nothing at all. |
| Authority.SetMintKeepsRecord | programs/inscription/src/processor/set_mint.rs:69-88 | SetMint changes only the mint, and only from none to the one the account derives from. |
| Authority.RecordedMintIsTheMint | programs/inscription/src/processor/set_mint.rs:43-79 | Over any run, also from legacy records, a recorded mint is the one the data account derives from. |
| Exceptions.FrozenDataChangesExactly | programs/inscription/src/processor/add_authority.rs:20-50 | A data account of an inscription without authorities can change if and only if its bytes parse as a record naming a key that can sign. |
| Exceptions.FrozenRecordChangesExactly | programs/inscription/src/processor/set_mint.rs:17-101 | The metadata of such an inscription can change if and only if its mint is not recorded and is still there. |
| Exposure.RecordChangesExactly | programs/inscription/src/processor/write_data.rs:71-131 | In a world of lawful runs, live metadata without authorities can change if and only if it can be passed for data, or lacks the mint it derives from. |
| Shadows.FrozenAltered | programs/inscription/src/processor/write_data.rs:99-131 | A lawful run from an empty ledger to an inscription without authorities whose metadata can change in this way. |
| Witnesses.FrozenButOpen | programs/inscription/src/processor/add_authority.rs:20-50 | A run from an empty ledger to an inscription without authorities whose data can still change. |
| Witnesses.LegacyAwaitsMint | programs/inscription/src/processor/set_mint.rs:69-88 | A legacy world in which the metadata of an inscription without authorities can still change. |
| Handovers.HandoverExactly | programs/inscription/src/processor/close.rs:127-139 | After any key is handed to the program, two owned accounts that pass the untagged check are a pair, and the invariant holds, if and only if the program has nothing at the key's metadata address; else it is the data of that mint. |
| Handovers.HandedKeyCloses | programs/inscription/src/processor/close.rs:122-147 | The failing input: with the key of a closed mint handed over, a signer that the mint's data names closes that data in place of its metadata. |
| Handovers.FrozenClosesExactly | programs/inscription/src/processor/close.rs:24-50 | With any key handed over, the very next instruction can close the main data of an inscription without authorities if and only if the key is its mint and its bytes pass for the key's childless metadata with a possible signer. |
| Witnesses.HandoverBreaks | programs/inscription/src/processor/close.rs:20-57 | A run from an empty ledger to an inscription without authorities that a non-authority can close once the key of its closed mint is handed over. |
| Registries.LedgerRefinesRegistry | programs/inscription/src/processor/close.rs:57-148 | Every successful instruction is one permitted step of a registry of (account, rank, authority set, mint, data, tag to bytes), given that the authority instructions are passed a metadata account. |
| Registries.StepRefines | programs/inscription/src/processor/initialize_associated_inscription.rs:104-147 | Without that proviso: each step of the chain is a registry step, or an edit of the authority list inside one slot's own bytes. |
| Registries.RunRefines | programs/inscription/src/processor/mod.rs:31-84 | Every run of the chain is a run of the registry, which starts empty. |
| Registries.AuthorityOnDataAccount | programs/inscription/src/processor/remove_authority.rs:16-24 | An authority instruction that accepts something other than metadata edits one data account, in its list only. |
| Success.SucceedsExactly | programs/inscription/src/processor/mod.rs:38-83 | An instruction succeeds if and only if the registry permits it, the accounts are the right ones, and its space is within bounds and granted. |
| Success.ImproperSucceedsExactly | programs/inscription/src/processor/clear_data.rs:17-25 | The exact conditions for the two remaining cases: clearing an empty account needs no authority; authority instructions on record-like data. |
| Success.OverflowsAtLimit | programs/inscription/src/processor/initialize.rs:104-115 | An initialisation fails with NumericalOverflow if and only if all it checks before is right and the shard's next rank does not fit; on a shard of the program, from count 2^59 on. |
| Success.OutsidersRefused | clients/js/test/authority.test.ts:122-130 | All seven instructions that need an authority fail with InvalidAuthority if all who must have signed, all else is right, and the authority account (where none is passed, the payer) is not listed; a listed payer does not help. |
| Success.UnsignedRefused | programs/inscription/src/processor/close.rs:35-44 | They fail with MissingRequiredSignature if all else is right and the payer, or the authority account that is passed, has not signed. |
| Success.AuthorityDecides | clients/js/test/writeData.test.ts:145-184 | With all else right, each of the seven succeeds if and only if the payer and any authority account signed and the authority account (where none is passed, the payer) is listed. |
| Success.CloseRefusedWithChildren | programs/inscription/src/processor/close.rs:122-125 | While children remain, an authorised close of the pair fails with RemainingAssociatedInscriptionAccounts. |
| Success.TakenTagRefused | programs/inscription/src/processor/initialize_associated_inscription.rs:31-36 | A tag in use is refused with AlreadyInitialized, although the list itself is never searched. |
| Success.RecordSize | programs/inscription/src/state.rs:35-48 | The size of a record, field by field, from which the growth of each rewrite is bounded. |
| Chunking.RetrieveChunks | clients/cli/utils.ts:23-32 | The loop cuts the input so that chunk j starts at j times the size, covers it, and is never empty. |
| Chunking.ChunksJoin | clients/cli/utils.ts:23-32 | Put together, the chunks are the input. |
| Chunking.CompareChunkSets | clients/cli/utils.ts:133-146 | Keeps the differing chunks; has no result for an account that does not exist, and runs out of the account's chunks exactly when it has fewer. |
| Chunking.LongEnoughCompares | clients/cli/utils.ts:139-143 | With an account as long as the input the comparison never indexes out of range. |
| Chunking.DifferencesFound | clients/cli/utils.ts:136-143 | Of the places at multiples of 500 the comparison keeps just those where the 500 bytes (or what is left of them) differ, in ascending order, with the input's bytes. |
| Chunking.DifferingAreAll | clients/cli/utils.ts:139-143 | A chunk is kept exactly when the account's bytes at its place differ. |
| Upload.WritesConverge | clients/js/test/writeData.test.ts:302-329 | Writes of parts of an input that reach every place not right yet leave exactly the input, in any order, with repetitions, whatever fills the gaps. |
| Upload.WritesWithoutAllocation | programs/inscription/src/processor/write_data.rs:110-131 | On the ledger and without allocation, the successful writes of any attempted sequence that cover the input end in the input. |
| Upload.ChecksMakeReady | programs/inscription/src/processor/write_data.rs:20-108 | In a kept world an account that passes the checks is fit for an upload, and stays so. |
| Upload.AllocationsGrow | programs/inscription/src/processor/allocate.rs:109-124 | n successful allocations from size s give min(target, s + 10240 n) and keep the first s bytes. |
| Upload.EstimateIsExact | clients/cli/utils.ts:38-38 | The estimate is the least number of successful calls that reaches the target. |
| Upload.ExtraAllocationIsIdle | clients/cli/utils.ts:50-63 | A further allocation towards the size already reached changes nothing. |
| Upload.AllocateKeepsExactly | programs/inscription/src/processor/allocate.rs:109-124 | Allocate keeps the old bytes if and only if its target is no smaller than the account; else it truncates to the target. |
| Upload.AllocateTruncates | programs/inscription/src/processor/allocate.rs:109-124 | Towards a target below the size it succeeds whenever space is granted, and leaves just the target's bytes. |
| Upload.AllocateSpace | clients/cli/utils.ts:44-67 | The allocation loop reaches the input's length if enough of its calls succeed in whatever rounds, in as many rounds as estimated if each has one success, in one round if none fails, and keeps what was there; the calls it sends are, round by round, as many as the estimate says for the size then, each for the whole length. |
| Upload.WriteChunks | clients/cli/utils.ts:78-103 | Under any interleaving, loss, late arrival and repetition, of allocation calls too, exactly the chunks that got through are written out, nothing right is spoilt and nothing beyond the input is touched; one call is sent for each attempt that arrives, and no other. |
| Upload.Inscribe | clients/cli/utils.ts:34-113 | A finished upload to an account no longer than the input leaves exactly the input; it finishes exactly when one write of every pending chunk has succeeded after enough allocation calls. When it compares, `pending` is the number of places where the account's bytes and the input differ; every write it sends is for such a place, with the input's bytes there, and every allocation is for the input's length. On its own result it writes nothing. |
| Upload.AccountValid | clients/cli/utils.ts:123-131 | True exactly when the account exists and holds the expected bytes. |
| Upload.EnsureInscribed | clients/cli/commands/inscribe/nft.ts:159-164 | Upload unless valid: it sends calls for what differs only, finishes once those have succeeded, and then the account is valid if and only if it was no longer than the input before. |
| Bystanders.Undisturbed | programs/inscription/src/processor/write_data.rs:88-108 | Any steps of parties without authority over the target, mingled with an upload's calls in any way, leave the target's bytes as the calls alone would have. |
| Bystanders.UploadAmongBystanders | clients/cli/utils.ts:34-113 | What an upload achieves alone it achieves with the same calls among such parties, and whatever it reads on the way is the same. |

## Left out

- Lamports, rent and transfers: in libraries and the runtime that are not part of this model; `Runtime.grants` stands for all their failures of one instruction.
- Upgrade of the program and the maximum size of an account.
- The hash, the off-curve test and the bump search behind derived addresses: one digest and one canonical bump for each seed string.
- Token Metadata parsing and the token programs: a token-owned mint, and a parser that gives mint and update authority.
- Lifecycles and the registry after a key is handed over whose mint data the program still has: Lifecycles and Registries speak of fair runs. What fails then, and exactly when, is in Handovers, Exposure and Collapse.
- Instruction deserialisation, the account-context macros, logging and error texts.
- Generated instruction builders, fetch helpers and the client plugin.
- The Rust client's shard address helper, which seeds with decimal text where the program uses one raw byte; no agreement is claimed.
- The JavaScript choice of a random shard, which takes an explicit shard 0 for absent.
- Fetching, downloading, compressing, cost estimates and progress bars of the command line client.
- The loop of nft.ts that creates associated accounts: it never sets its success flag, so it is not claimed to end.
- Stale reads: the upload sees the current ledger.
- Other authorities of the same inscription writing to it, or removing the uploader, in the middle of an upload.
- Inscribe: does not run for ever; `patience` and the schedule bound how many rounds and attempts are watched, and the result says whether they were enough.
- Ranks across shards in order of time, Allocate never shrinking, and an upload trimming a longer account: the code does not do these, and the members MintingOrder, AllocateKeepsExactly and EnsureInscribed say when it comes to the same.
