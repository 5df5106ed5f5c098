# KCP transport settings and cipher selection

This project models two pieces of the paqet tunnel's KCP transport, in Dafny.

- **`kcp_conf.dfy`, module `KcpConf`.** This models the `KCP` configuration record of `internal/conf/kcp.go`.
  - The record is a class with the struct's ten fields.
  - `SetDefaults(role)` fills, in place, every zero-valued field that has a default. "server" gets 1024-packet windows and any other role gets 512.
  - `Validate()` reports one violation per broken rule. It reads the record and never writes it: the method has no `modifies` clause. The rules are checked in a fixed order: mode, MTU, receive window, send window, block name, multiplexer buffer, stream buffer, key.
  - Both methods are proved against pure specification functions on a `Settings` value: `Defaulted` and `Violations`. Lemmas about those functions state what defaulting and validation guarantee.
- **`block_crypt.dfy`, module `BlockCrypt`.** This models `newBlock` of `internal/tnet/kcp/block.go`.
  - There is a closed registry from block name to required key size and constructor.
  - A 32-byte key is derived from the passphrase with PBKDF2. The salt is "paqet" and the iteration count is 100000.
  - The key is truncated to the registry's size when that size is non-zero, and the named constructor is called. An unknown name gives an "unsupported block" error.
  - PBKDF2-HMAC-SHA256 and the cipher constructors are foreign code. They are function-valued parameters (`kdf`, `construct`). The lemmas that need PBKDF2's output length take it as the precondition `YieldsKeyLen(kdf)`.

The two modules connect through `BlockCrypt.ValidatedBlockIsSupported`: a block name that passes validation is always in the registry.

## Model

| member | source | states |
|---|---|---|
| KcpConf.Defaulted | internal/conf/kcp.go:23-62 | Defaulting never changes a non-zero field, passes dshard, pshard and key through untouched, and leaves no defaultable field at zero |
| KcpConf.DefaultedIdempotent | internal/conf/kcp.go:23-62 | Defaulting a defaulted record again, with any role, changes nothing |
| KcpConf.FilledIsFixedPoint | internal/conf/kcp.go:23-62 | A record with every defaultable field set is left unchanged |
| KcpConf.WindowsFollowRole | internal/conf/kcp.go:31-44 | Each unset window, independently of the other, becomes 1024 for role "server" and 512 for every other role string |
| KcpConf.EmptyDefaults | internal/conf/kcp.go:23-62 | The empty record defaults to mode "fast", MTU 1350, block "aes", buffers 4194304 and 2097152, and role-dependent windows; shards and key stay zero |
| KcpConf.KCP.SetDefaults | internal/conf/kcp.go:23-63 | The record after the call is exactly the defaulting of the record before it |
| KcpConf.KCP.SetLinkDefaults | internal/conf/kcp.go:24-29 | Mode becomes "fast" and MTU becomes 1350 when unset; no other field changes |
| KcpConf.KCP.SetWindowDefaults | internal/conf/kcp.go:31-44 | Unset windows get the role's default; no other field changes |
| KcpConf.KCP.SetBlockDefault | internal/conf/kcp.go:53-55 | Block becomes "aes" when unset; no other field changes |
| KcpConf.KCP.SetBufferDefaults | internal/conf/kcp.go:57-62 | Unset buffers become 4 MiB and 2 MiB; no other field changes |
| KcpConf.ValidModes | internal/conf/kcp.go:68 | The four accepted mode names: normal, fast, fast2, fast3 |
| KcpConf.ValidBlocks | internal/conf/kcp.go:84 | The fourteen accepted block names, "none" included |
| KcpConf.Violates | internal/conf/kcp.go:68-98 | The rule table: mode among the four names, MTU in [50, 1500], each window in [1, 32768], block among the fourteen names, each buffer at least 1024, and a non-empty key unless the block is "none" |
| KcpConf.Reported | internal/conf/kcp.go:65-100 | The list the first n checks build: each check runs after the previous ones and appends its rule when it fails |
| KcpConf.Violations | internal/conf/kcp.go:65-100 | The whole report of validation: all eight checks, in source order |
| KcpConf.ReportedExactly | internal/conf/kcp.go:65-100 | The first n checks report exactly the broken rules among the first n, each once, in checking order |
| KcpConf.ViolationsExactly | internal/conf/kcp.go:65-100 | A rule is reported if and only if the record breaks it; entries are strictly in rule order, hence without duplicates |
| KcpConf.KCP.Validate | internal/conf/kcp.go:65-101 | Returns the specified violation list of the current record: each broken rule exactly once, in checking order, and no other |
| KcpConf.KCP.CheckLink | internal/conf/kcp.go:68-75 | Reports the mode and MTU rules, in that order |
| KcpConf.KCP.CheckWindows | internal/conf/kcp.go:77-82 | Extends the report with the two window rules |
| KcpConf.KCP.CheckBlock | internal/conf/kcp.go:84-87 | Extends the report with the block-name rule |
| KcpConf.KCP.CheckBuffers | internal/conf/kcp.go:89-94 | Extends the report with the two buffer rules |
| KcpConf.KCP.CheckKey | internal/conf/kcp.go:96-98 | Completes the report with the key rule |
| KcpConf.ViolationCount | internal/conf/kcp.go:65-100 | A record that breaks k rules yields a list of exactly k entries |
| KcpConf.AcceptedIffWellFormed | internal/conf/kcp.go:65-100 | The report is empty if and only if every rule holds |
| KcpConf.MtuBoundaries | internal/conf/kcp.go:73-75 | MTU 50 and 1500 are accepted; 49 and 1501 are rejected |
| KcpConf.UnknownBlockWithoutKey | internal/conf/kcp.go:84-98 | An unrecognised block name with an empty key draws both the block and the key violation |
| KcpConf.NoneNeedsNoKey | internal/conf/kcp.go:84-98 | Block "none" is accepted and needs no key |
| KcpConf.ShardsUnchecked | internal/conf/kcp.go:65-101 | No rule looks at dshard or pshard, so changing them never changes the report |
| KcpConf.FourRulesReported | internal/conf/kcp.go:65-100 | Several broken rules are all reported, in checking order (mode, rcvwnd, block, key), not only the first |
| KcpConf.DefaultingAddsNoViolation | internal/conf/kcp.go:23-100 | Every rule the defaulted record breaks, the original record broke too |
| KcpConf.ClientBootstrap | internal/conf/kcp.go:23-101 | An empty client section, once defaulted and validated, reports only the missing key |
| BlockCrypt.Registry | internal/tnet/kcp/block.go:16-31 | The cipher table: each of the fourteen names with its required key size and constructor |
| BlockCrypt.DeriveKey | internal/tnet/kcp/block.go:34 | The derived key has 32 bytes whenever the derivation function returns the length it is asked for |
| BlockCrypt.KeyFor | internal/tnet/kcp/block.go:37-40 | The constructor's key is a prefix of the derived key, keySize bytes long when 0 < keySize <= its length, otherwise the whole key |
| BlockCrypt.NewBlock | internal/tnet/kcp/block.go:33-49 | Unsupported-block error if and only if the name is not in the registry; otherwise the named constructor's result on the truncated key, its error carried unchanged inside `ConstructorError` |
| BlockCrypt.UnsupportedCallsNothing | internal/tnet/kcp/block.go:36-48 | For an unknown name the result is an error that does not depend on the constructors |
| BlockCrypt.OnlyTheNamedCall | internal/tnet/kcp/block.go:36-45 | For a known name the result depends on the constructors only through the registry's constructor applied to the truncated key |
| BlockCrypt.ConstructorKeyLength | internal/tnet/kcp/block.go:12-40 | For any registry entry, the constructor gets exactly keySize bytes, or the full 32-byte derived key when keySize is 0 |
| BlockCrypt.TruncationIgnoresTail | internal/tnet/kcp/block.go:38-39 | Derived keys that agree on their first keySize bytes give the same constructor key |
| BlockCrypt.Aes128VsAes | internal/tnet/kcp/block.go:17-18 | "aes" and "aes-128" share the AES constructor; the first gets the whole derived key, the second its first 16 bytes |
| BlockCrypt.RegistrySizes | internal/tnet/kcp/block.go:17-30 | Size 16 for exactly aes-128, aes-128-gcm, cast5, tea, xtea and sm4; 24 for exactly aes-192 and 3des; 0 for exactly aes, salsa20, blowfish, twofish, xor and none |
| BlockCrypt.RegistryMatchesValidBlocks | internal/tnet/kcp/block.go:16-31 | The registry's names are exactly the block names the configuration accepts (internal/conf/kcp.go:84) |
| BlockCrypt.ValidatedBlockIsSupported | internal/tnet/kcp/block.go:36-48 | A record whose block name passed validation never reaches the unsupported-block error |
| BlockCrypt.NoneUsesFullKey | internal/tnet/kcp/block.go:30-45 | Block "none" calls the pass-through constructor with the whole derived key and returns what it builds |

## Left out

- Error messages: each violation is an enumeration constant instead of a formatted `error` value. The number, kinds and order of violations are modelled; the message text is not.
- The YAML decoding of the section. The model starts from a decoded `Settings` value; `Zero` stands for a section with every field unset.
- PBKDF2, HMAC-SHA256 and the cipher constructors of the KCP library are not defined here. They are parameters. That the derived key is 32 bytes holds only under `YieldsKeyLen(kdf)`.
- Distinct passphrases giving distinct keys cannot be stated of an abstract derivation function, so it is not claimed.
- `[]byte(key)`: Go's conversion of the passphrase string to bytes is folded into the derivation parameter, which takes the passphrase as a string.
- The cipher objects themselves (encryption and decryption) do not appear. A built cipher is an opaque value of type parameter `H`.
- BlockCrypt.NewBlock: a constructor's failure comes back as `ConstructorError(cause)`, with the constructor's own error unchanged inside. The Go code returns that error value itself, without wrapping; the tag is only there because an abstract error type cannot be told apart from the unsupported-block error otherwise.
- KcpConf.KCP.SetDefaults: the source's single sequence of guarded assignments is split across four helper methods. They run in the source's order and each makes the same assignments. Only the grouping is added, to keep each proof small.
- KcpConf.KCP.Validate: the checks are likewise grouped into five helper methods that extend the list in the source's order.
- The rest of the transport (the KCP engine, sessions, multiplexing) and the other configuration sections are not part of this model.
- Integer width: Go's `int` is 64 bits, but these operations only compare fields against small constants and store constants. Unbounded integers therefore behave the same, and no wrap-around is modelled.
- The commented-out shard defaults (internal/conf/kcp.go:46-51) are not active code. The model leaves dshard and pshard untouched, as the code does.
