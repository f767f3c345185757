# Verified models of libshared

This project models the parts of `one/libshared` of a router firmware that carry the most state and
arithmetic, and proves what they are for:

* **AES and file encryption** (`SBoxes`, `Fips197`, `AesTheory`, `AesTables`, `Aes`, `AesLaws`,
  `AesAnswer128`, `AesAnswer192`, `AesAnswer256`, `Crypto`, `CryptFile`). `Fips197` is the cipher of FIPS 197 over columns of bytes, for blocks of 4, 6 and 8
  columns. The table-driven cipher over 32-bit words, its in-place key expansion and its reversed,
  pre-mixed decryption schedule are methods of a context class and are proved to compute that cipher.
  The examples of the standard for the three key lengths pin the cipher and the key schedule to their
  published values. Decryption undoes encryption for every key and block, and CBC chaining, hex coding, the text header
  and the 512-byte chunking of encrypted files sit on top.
* **Hashes** (`HashCore`, `Rfc1321`, `Fips180`, `PrimeRoots`, `Md5Rounds`, `HashBlocks`, `HashStream`,
  `Sha512Stream`, `Md5Words`, `AbcBlock`, `Md5Answer`, `Sha1Answer`, `Sha256Answer`, `Sha512Answer`).
  `Rfc1321` and `Fips180` are the standards; the SHA-2 constants are proved to be the bits of prime roots
  that they should be, and the digest of "abc" is derived round by round for each of the four. The unrolled and looped block functions, the byte-buffered
  streaming cores and the second, word-packing MD5 are imperative and are proved to give the digest of
  the standard for every message, however it is cut into calls. The two MD5 implementations agree.
* **Flash** (`FlashCells`, `ConfigStore`, `Nand`). The two-slot configuration store loses power after any
  number of sector erases and byte programs, over whole runs of starts and saves. NAND reading gives
  back what NAND writing stored under any pattern of bad blocks.
* **Switch** (`Bitmaps`, `RangeText`, `PortMap`, `PanelText`, `Membership`, `Ipv6`). Port numbering tables,
  the printer and the parser of port ranges, the two together, membership events folded by a listener,
  and the IPv6 address table with its prefix test.
* **Codecs and LEDs** (`Base64`, `Crc8`, `Led`).

`Common` holds an option type, byte strings and two small functions; `Decimal` holds decimal numerals.

Code that works step by step in the original is a method with loops and invariants, on a class where
the original updates a structure; each is tied by its `ensures` to a specification function, and the
lemmas are about those functions. Sizes that headers or devices fix (geometry, table sizes, slot limits)
are parameters.

## What the proofs found

* The configuration store is right exactly when the checksum tells every torn copy of the data from the
  data (`ConfigStore.SaveRecoversExactly`); the header alone protects itself, because an unfinished
  length field reads as an impossible length. A save without the repair that a start does would lose
  everything at its first erase (`ConfigStore.SaveWithoutRepairLoses`). A start that finds neither slot
  valid reports success.
* The parser of port ranges does not return when it accepts a range that ends in 65535, because its 16-bit
  index never passes that; it returns exactly when it accepts none (`RangeText.ReturnsExactly`). Such a
  range is accepted when the port before the base of its slot is valid (`RangeText.EndlessInput`).
* When the first port of a product has no known slot or type, the extremes of the survey start from zero,
  and the last line can be written past the allocated slot table. It lies inside exactly when slots and
  types have no gaps, counted from zero in that case (`PortMap.SurveyFitsExactly`,
  `PortMap.UnknownFirstOverruns`).
* The length of a file goes through an int: a file comes back from encryption and decryption exactly when
  it is at most `INT_MAX` bytes long (`CryptFile.FileRoundTripExactly`). Others come back
  as far as the wrapped length says, which is nothing where it is negative (`CryptFile.FileComesBack`,
  `CryptFile.LongFilesAreLost`).
* Decrypting a file that does not start with the mark gives an empty file, although the code rewinds it
  (`CryptFile.UnmarkedFileIsDropped`).
* A panel port number outside a slot and type is not refused: it is taken whenever its sum with the base
  is some valid port, so it may name another slot's port (`PortMap.LogicalIsRightExactly`,
  `PortMap.OtherSlotsPort`).
* While membership events arrive, a listener sees a port both tagged and untagged exactly when the port
  moves from untagged to tagged (`Membership.NeverBothExactly`, `Membership.SeenBoth`).
* The base64 decoder takes a NUL byte as a 65th position instead of ignoring it, because the search for
  the character also finds the terminator (`Base64.NulIsNotIgnored`). The bytes that can stand anywhere
  without changing any decoding are exactly those outside the table, the padding sign and NUL
  (`Base64.HarmlessExactly`).
* `crc8` returns zero for an empty part, so feeding parts one after the other is right only when neither
  is empty or that zero happens to be right (`Crc8.ResultJoinsExactly`).
* The two NAND functions return different next positions when the last page is partly used; the
  difference is the padding (`Nand.WriteThenRead`).

* The LED table does not notice a dial-down while Ethernet is up, a missing SIM while the connection is up,
  or disabling dialling in the other-error state, whose line names the modem-error state instead
  (`Led.EventMeans`).

## Model

| member | source | states |
|---|---|---|
| SBoxes.SBoxIsAffineInverse | one/libshared/aes.c:205-243 | the S-box table is the affine map of the inverse in GF(2^8), with 0 for 0, as the table generator computes it |
| SBoxes.InvSBoxSBox | one/libshared/aes.c:245-283 | the inverse table undoes the S-box table on all 256 bytes |
| Fips197.InvMixColMixCol | one/libshared/aes.c:895-903 | multiplying a column by the inverse coefficients undoes multiplying it by 02, 03, 01, 01 |
| Fips197.InvMixColLinear | one/libshared/aes.c:895-903 | the inverse column product distributes over adding columns |
| AesTheory.SubBytesUndone | one/libshared/aes.c:207-283 | inverse substitution undoes substitution on every state |
| AesTheory.MixColumnsUndone | one/libshared/aes.c:877-903 | inverse column mixing undoes column mixing on every state |
| AesTheory.ShiftRowsUndone | one/libshared/aes.c:1104-1178 | the right row shifts undo the left row shifts for 4, 6 and 8 columns |
| AesTheory.InvMixColumnsAdd | one/libshared/aes.c:1059-1081 | why decryption keys can be mixed beforehand: inverse mixing distributes over adding a round key |
| AesTheory.PeelUndoesRounds | one/libshared/aes.c:1350-1361 | undoing n rounds one by one gives back the state before them, for any schedule and round count |
| AesTheory.InvCipherUndoesCipher | one/libshared/aes.c:1320-1434 | the inverse cipher of FIPS 197 section 5.3 undoes the cipher for every block width, schedule and round count |
| AesTheory.EqInvCipherIsInvCipher | one/libshared/aes.c:1378-1434 | with a reversed schedule whose inner keys are inverse-mixed, the equivalent inverse cipher of section 5.3.5 equals the inverse cipher |
| AesTables.FFmulIsGfMul | one/libshared/aes.c:751-757 | the multiplication formulas behind the tables are the products in GF(2^8) |
| AesTables.PickersAreRowShifts | one/libshared/aes.c:1104-1178 | fwd_var and inv_var pick, for every row, column and block width, the column that the row shifts of FIPS 197 name |
| AesTables.FwdRoundIsFipsRound | one/libshared/aes.c:1183-1184 | four rotated table lookups per column and a round key are SubBytes, ShiftRows, MixColumns and AddRoundKey |
| AesTables.FwdLastRoundIsFipsRound | one/libshared/aes.c:1194-1195 | the last round through the plain tables is SubBytes, ShiftRows and AddRoundKey |
| AesTables.InvRoundIsFipsRound | one/libshared/aes.c:1183-1185 | a table round of decryption is InvSubBytes, InvShiftRows, InvMixColumns and AddRoundKey with a mixed key |
| AesTables.InvLastRoundIsFipsRound | one/libshared/aes.c:1194-1196 | the last round of decryption is InvSubBytes, InvShiftRows and AddRoundKey |
| AesTables.InvMcolIsInvMixCol | one/libshared/aes.c:895-903 | inv_mcol on a word is the inverse column product |
| AesTables.LsBoxIsSubWord | one/libshared/aes.c:887-893 | ls_box with rotation 3 is SubWord of RotWord, with rotation 0 SubWord |
| Aes.ToStateToBytes | one/libshared/aes.c:1180-1181 | the bytes of a state laid out column by column give back the state |
| Aes.ToBytesToState | one/libshared/aes.c:1180-1181 | and the state of a whole number of columns gives back its bytes |
| Aes.SpanIsTight | one/libshared/aes.c:285-293 | for every key and block size the unrolled passes write the schedule, fewer than Nk words beyond it, and use at most 29 round constants |
| Aes.RconTabIsPowers | one/libshared/aes.c:295-305 | entry i of the constant table is x to the power i in GF(2^8) |
| Aes.KeyWordOfPass | one/libshared/aes.c:1003-1057 | word j of pass m of the key expansion recurrence of section 5.2, in the form the unrolled loops use; the recurrence gives the published schedules (see the three answers) |
| Aes.AesContext.constructor | one/libshared/aes.c:913-935 | the width is the one whose size in bytes or bits is given, and 4 columns when none is |
| Aes.AesContext.Store | one/libshared/aes.c:1016-1055 | one assignment of the expansion extends the expanded words by one and changes no other |
| Aes.AesContext.Pass6 | one/libshared/aes.c:1028-1037 | one pass of the six-word loop extends the expansion by six words |
| Aes.AesContext.Pass8 | one/libshared/aes.c:1044-1055 | one pass of the eight-word loop extends the expansion by eight words |
| Aes.AesContext.Expand4 | one/libshared/aes.c:1016-1024 | the 4-word loop fills the schedule with the recurrence of section 5.2 and leaves what lies beyond its span alone |
| Aes.AesContext.Expand6 | one/libshared/aes.c:1026-1038 | the same for keys of 6 words |
| Aes.AesContext.Expand8 | one/libshared/aes.c:1040-1056 | the same for keys of 8 words |
| Aes.AesContext.InvertStep | one/libshared/aes.c:1059-1081 | decryption round key Nr-i becomes encryption round key i, inverse-mixed except at the two ends, and the ones already done stay |
| Aes.AesContext.InvertSchedule | one/libshared/aes.c:1059-1081 | the moving pointers fill d_key with exactly the schedule that the equivalent inverse cipher needs |
| Aes.AesContext.SetKey | one/libshared/aes.c:979-1083 | after setting a key of 16, 24 or 32 bytes both arrays hold the two schedules of that key by section 5.2; with the flag set d_key is untouched |
| Aes.AesContext.Encrypt | one/libshared/aes.c:1320-1376 | the table-driven encryption equals the cipher of section 5.1 under the stored schedule and writes only the block |
| Aes.AesContext.Decrypt | one/libshared/aes.c:1378-1434 | the table-driven decryption equals the equivalent inverse cipher under the stored schedule and writes only the block |
| Aes.DecryptUndoesEncrypt | one/libshared/aes.c:1320-1434 | decrypting an encrypted block returns it, for every key length, block width, key and block |
| Aes.ScheduleDecrypts | one/libshared/aes.c:1059-1081 | any schedule of the inverted form decrypts as the key does, so the context decrypts what it encrypted |
| AesLaws.RowsTurn | one/libshared/aes.c:1104-1178 | row r of a shifted block is row r turned left by 0, 1, 2, 3 places, or by 0, 1, 3, 4 in blocks of 8 columns, for every block |
| AesLaws.RoundCounts | one/libshared/aes.c:1003-1003 | the numbers of rounds for the nine key and block sizes |
| AesLaws.RoundOnFour | one/libshared/aes.c:1183-1196 | one round on any four columns, column by column over the diagonals of the block |
| AesAnswer128.Answer | one/libshared/aes.c:979-1376 | the key and block of appendix B of FIPS 197 encrypt to its ciphertext, through each schedule word and round state |
| AesAnswer192.Answer | one/libshared/aes.c:979-1376 | the same for the 24-byte key of appendix C.2 |
| AesAnswer256.Answer | one/libshared/aes.c:979-1376 | the same for the 32-byte key of appendix C.3 |
| Crypto.CbcRoundTrip | one/libshared/aes_cbc.c:52-52 | CBC decryption undoes CBC encryption (section 6.2 of NIST SP 800-38A) for every key, IV and whole number of blocks |
| Crypto.CbcBlock | one/libshared/aes_cbc.c:52-52 | each block of a chained encryption is the cipher of that block added, byte by byte, to the block of ciphertext before it or to the starting vector |
| Crypto.CbcCrypt | one/libshared/aes_cbc.c:48-52 | the chaining loop over a keyed context computes CBC of FIPS 197 in either direction |
| Crypto.BlockThereAndBack | one/libshared/aes_cbc.c:48-52 | a context with the key set encrypts a block of 4, 6 or 8 columns as FIPS 197 does and decrypts the result to the block |
| Crypto.HexRoundTrip | one/libshared/crypto.c:99-100 | reading the hex text of a byte string gives the byte string |
| Crypto.HexText | one/libshared/crypto.c:99-100 | all sixteen digits as text, the high half of a byte first |
| Crypto.KeyText | one/libshared/crypto.c:28-28 | the fixed key as text |
| Crypto.StrRoundTrip | one/libshared/crypto.c:77-145 | decrypting an encrypted string gives the string followed by zeros, fewer than a block of them |
| Crypto.AesEncryptStr | one/libshared/crypto.c:77-105 | the hex of the CBC encryption of the padded string under the fixed key and a zero IV, and the number of bytes ciphered |
| Crypto.AesDecryptStr | one/libshared/crypto.c:115-145 | the inverse, or an error exactly for lengths that are no whole number of coded blocks |
| Decimal.ValueOfNumeral | one/libshared/crypto.c:183-197 | reading a printed number gives the number |
| CryptFile.HeaderText | one/libshared/crypto.c:177-188 | the header line of a length with all ten digits, byte by byte |
| CryptFile.ChunkAt | one/libshared/crypto.c:215-233 | each 512 bytes of content become 1024 characters at twice the position, coded on their own |
| CryptFile.HeaderIsReadBack | one/libshared/crypto.c:182-199 | the header line is found again in the file and its length, any int, is read back |
| CryptFile.CryptFile | one/libshared/crypto.c:157-240 | the chunk loop writes exactly the encrypted or decrypted file, with the length of the input cut to a 32-bit int, and returns the length written without the header, cut to an int too |
| CryptFile.CryptChunk | one/libshared/crypto.c:215-233 | one chunk: encrypted whole, or decrypted and cut to the bytes that are left |
| CryptFile.ChunksRoundTrip | one/libshared/crypto.c:203-234 | chunks encrypted on their own and decrypted on their own up to a number of bytes give that many bytes of the content |
| CryptFile.FileRoundTripExactly | one/libshared/crypto.c:157-240 | decrypting an encrypted file gives its content if and only if its length is at most the greatest int |
| CryptFile.FileComesBack | one/libshared/crypto.c:157-240 | what decrypting an encrypted file gives for every content: as many of its first bytes as the int says, or nothing when that is negative |
| CryptFile.LongFilesAreLost | one/libshared/crypto.c:177-184 | a file of 2 GiB gives nothing, one of 4 GiB and five bytes gives five bytes |
| CryptFile.UnmarkedFileIsDropped | one/libshared/crypto.c:194-204 | decrypting a file without the mark gives nothing |
| HashCore.FoldAppend | one/libshared/hash_md5_sha.c:39-62 | folding whole blocks and then more is folding all, whatever the compression function |
| HashCore.PaddingIsLeast | one/libshared/hash_md5_sha.c:70-95 | the padding is a one bit, zeros and the length, whole blocks in all, with the least number of zeros |
| Rfc1321.LengthIsBits | one/libshared/hash_md5_sha.c:79-90 | the length field of MD5 is the number of bits modulo 2^64, low word first |
| Fips180.LengthIsBits | one/libshared/hash_md5_sha.c:79-90 | that of SHA-1 and SHA-256, high word first |
| Fips180.LongLengthIsBits | one/libshared/hash_md5_sha.c:880-905 | that of SHA-512 is the number of bits modulo 2^128, high word first |
| PrimeRoots.PrimesInOrder | one/libshared/hash_md5_sha.c:568-572 | the list of 80 primes starts with 2, holds only primes and leaves none out |
| PrimeRoots.K512IsCubeRoot | one/libshared/hash_md5_sha.c:573-614 | constant t is the first 64 bits of the fraction of the cube root of prime t, for all 80 |
| PrimeRoots.Sha512InitIsSquareRoot | one/libshared/hash_md5_sha.c:762-806 | the start of SHA-512 is the first 64 bits of the fractions of the square roots of the first eight primes |
| PrimeRoots.Sha256InitIsUpperHalf | one/libshared/hash_md5_sha.c:762-773 | the start of SHA-256 is the upper halves of those |
| Md5Rounds.CallIsOperation | one/libshared/hash_md5_sha.c:299-346 | a step macro of either implementation, with its simplified boolean functions, computes the operation of RFC 1321 |
| Md5Rounds.CallIsStep | one/libshared/md5_share_dgst.c:53-124 | macro call number i with the register names turned computes step i |
| Md5Rounds.Unrolled | one/libshared/md5_share_dgst.c:53-124 | the 64 unrolled calls, with their written-out constants, shifts and word numbers, and the sums are the compression of RFC 1321 |
| HashBlocks.PArrayIsWordIndex | one/libshared/hash_md5_sha.c:166-173 | the permutation table lists the word indices of RFC 1321 section 3.4 |
| HashBlocks.LoopTurnIsOperation | one/libshared/hash_md5_sha.c:205-229 | one turn of the MD5 loop, with the tables it walks, is the operation of RFC 1321 |
| HashBlocks.Md5ProcessBlock64 | one/libshared/hash_md5_sha.c:281-435 | the unrolled MD5 block function is the compression of RFC 1321 for every block and chaining value |
| HashBlocks.Md5ProcessBlock64Small | one/libshared/hash_md5_sha.c:200-229 | so is the table-driven loop of the smallest variant |
| HashBlocks.MirroredStep | one/libshared/hash_md5_sha.c:545-547 | writing word cnt and word cnt+16 keeps the doubled 16-word array a window on the 80-word schedule |
| HashBlocks.WindowReads | one/libshared/hash_md5_sha.c:546-546 | reads at fixed offsets in the doubled array are the schedule words 3, 8, 14 and 16 steps back |
| HashBlocks.WorkBitsIsF | one/libshared/hash_md5_sha.c:532-544 | the bit tricks of the four round groups are the functions of FIPS 180-4 section 4.1.1 |
| HashBlocks.Sha1ProcessBlock64 | one/libshared/hash_md5_sha.c:504-566 | the SHA-1 block function with its circular doubled schedule is the compression of FIPS 180-4 section 6.1.2 |
| HashBlocks.Sha256ProcessBlock64 | one/libshared/hash_md5_sha.c:623-686 | the SHA-256 block function is the compression of section 6.2.2 |
| HashBlocks.K256IsUpperHalf | one/libshared/hash_md5_sha.c:658-658 | the SHA-256 constants are the upper halves of the SHA-512 constants |
| HashBlocks.Sha512ProcessBlock128 | one/libshared/hash_md5_sha.c:688-749 | the SHA-512 block function is the compression of section 6.4.2 |
| HashStream.HashContext.constructor | one/libshared/hash_md5_sha.c:445-796 | a fresh context has been fed nothing |
| HashStream.HashContext.Hash | one/libshared/hash_md5_sha.c:39-62 | feeding a buffer of any length appends it to what was fed: whole blocks are compressed, the rest is buffered, the counter counts modulo 2^64 |
| HashStream.HashContext.PadBlock | one/libshared/hash_md5_sha.c:74-94 | one pass of the end loop feeds zeros, the length field when it fits, and the block |
| HashStream.HashContext.End | one/libshared/hash_md5_sha.c:65-96 | the result is the digest of the standard over everything fed, for MD5, SHA-1 and SHA-256; the loop runs once or twice, twice exactly when fewer than 8 bytes are free |
| HashStream.DigestPieces | one/libshared/hash_md5_sha.c:39-96 | one call for every piece and the end give the digest of the message, however it is cut |
| HashStream.StoredLength | one/libshared/hash_md5_sha.c:79-90 | the wrapped byte counter shifted by three is the length field, in the byte order of the algorithm |
| HashStream.EndIsPadded | one/libshared/hash_md5_sha.c:71-95 | what the end loop feeds is the padding of the standards |
| Sha512Stream.CarryCounts | one/libshared/hash_md5_sha.c:808-819 | the two counter words with their carry hold the byte count modulo 2^128 |
| Sha512Stream.BitCount | one/libshared/hash_md5_sha.c:880-905 | shifted by three across the words they are 8 times the byte count modulo 2^128 |
| Sha512Stream.JoinedByOr | one/libshared/hash_md5_sha.c:896-896 | the two parts of the high length word share no bit, so joining them by or adds them; this is how the stored word is read as a number |
| Sha512Stream.StoredLength | one/libshared/hash_md5_sha.c:880-905 | the 16 bytes that the shifts and the or of the two 64-bit words give are the 128-bit length field |
| Sha512Stream.Sha512Context.Hash | one/libshared/hash_md5_sha.c:808-853 | feeding appends, with the two-word counter |
| Sha512Stream.Sha512Context.End | one/libshared/hash_md5_sha.c:873-917 | the result is the SHA-512 digest of everything fed; the loop runs once or twice |
| Sha512Stream.DigestPieces | one/libshared/hash_md5_sha.c:808-917 | the same for SHA-512 |
| Md5Answer.AbcDigest | one/libshared/hash_md5_sha.c:166-435 | the MD5 digest of "abc" is the one of RFC 1321, derived operation by operation |
| Sha1Answer.AbcDigest | one/libshared/hash_md5_sha.c:504-566 | the SHA-1 digest of "abc" is the published one, derived round by round |
| Sha256Answer.AbcDigest | one/libshared/hash_md5_sha.c:623-686 | the same for SHA-256 |
| Sha512Answer.AbcDigest | one/libshared/hash_md5_sha.c:688-749 | the same for SHA-512 |
| Md5Rounds.Mix2IsMix | one/libshared/md5_share_locl.h:93-96 | the simplified F, G, H, I are the functions of RFC 1321 |
| Md5Words.BlockHostOrder | one/libshared/md5_share_dgst.c:26-126 | one block in host order is the compression of RFC 1321 |
| Md5Words.PC2lJoins | one/libshared/md32_share_common.h:251-257 | topping up a partly filled word appends the bytes to those it holds |
| Md5Words.PC2lPJoins | one/libshared/md32_share_common.h:258-265 | the same for bytes that do not fill the word |
| Md5Words.C2lPJoins | one/libshared/md32_share_common.h:266-273 | the last bytes, loaded from the highest down, are packed with zeros above |
| Md5Words.CountBits | one/libshared/md32_share_common.h:295-301 | the low word, its carry and the bits lost by the shift keep the 64-bit bit count |
| Md5Words.Md5WordsContext.constructor | one/libshared/md5_share_dgst.c:14-23 | a fresh context has been fed nothing |
| Md5Words.Md5WordsContext.Update | one/libshared/md32_share_common.h:286-396 | feeding bytes of any length, through all its branches, appends them to what was fed |
| Md5Words.Md5WordsContext.FillBlock | one/libshared/md32_share_common.h:309-320 | the bytes that complete a partly filled block, and the block |
| Md5Words.Md5WordsContext.FillPart | one/libshared/md32_share_common.h:321-343 | bytes that do not complete it, within a word or across words |
| Md5Words.Md5WordsContext.WholeBlocks | one/libshared/md32_share_common.h:346-395 | whole blocks straight from the input, the rest packed into the block |
| Md5Words.Md5WordsContext.BlockDataOrder | one/libshared/md5_share_dgst.c:133-243 | blocks packed from bytes and compressed one after the other |
| Md5Words.Md5WordsContext.Final | one/libshared/md32_share_common.h:419-480 | the result is the MD5 digest of everything fed, the same function that the streaming core computes |
| Md5Words.DigestPieces | one/libshared/md32_share_common.h:286-480 | one call for every piece and the end give the MD5 digest of the message, however it is cut |
| Md5Words.BothDigests | one/libshared/md32_share_common.h:286-480 | the two MD5 implementations give the same digest of a message, each fed in its own pieces |
| ConfigStore.ErasedTakesAny | one/libshared/is_config.c:162-181 | programming, which only clears bits, stores any byte where the cell was erased |
| ConfigStore.AndBits | one/libshared/is_config.c:162-181 | a programmed bit stays one exactly when the cell and the byte both have it |
| ConfigStore.ImageDecodes | one/libshared/is_config.c:159-160 | what save builds is what relocate accepts, with the same data |
| ConfigStore.Partition.Erase | one/libshared/mtdutils.c:191-212 | on NOR flash, sectors from the start read 0xFF, as many as were erased before the power failed |
| ConfigStore.Partition.Write | one/libshared/mtdutils.c:343-430 | bytes from the start are programmed, as many as the power lasted for |
| ConfigStore.Partition.Burn | one/libshared/is_config.c:165-171 | the least number of sectors that holds the configuration is erased and rewritten, up to the failure |
| ConfigStore.ConfigStore.ReadSlot | one/libshared/is_config.c:34-75 | data whose length is possible and whose checksum fits, or nothing |
| ConfigStore.ConfigStore.Relocate | one/libshared/is_config.c:77-128 | hands out main, else the backup and repairs main from it, cut off anywhere; success is reported even when neither slot is valid |
| ConfigStore.ConfigStore.Save | one/libshared/is_config.c:130-204 | backup first, then main, cut off anywhere; an empty file is refused, and of a long one as much is stored as a partition holds (CutKeeps) |
| ConfigStore.CutKeeps | one/libshared/is_config.c:152-159 | a save stores the whole file, or the first DATA_SIZE bytes of a longer one |
| ConfigStore.TornHead | one/libshared/is_config.c:53-57 | before the length field is complete the slot is rejected without the checksum |
| ConfigStore.BurnedDecodes | one/libshared/is_config.c:50-63 | after any number of steps a slot being rewritten is rejected or holds the new data, and which of the two is decided by the steps done |
| ConfigStore.SaveRecovers | one/libshared/is_config.c:162-200 | a save cut off after k steps leaves exactly the old configuration up to the end of the backup phase and exactly the new one from the first erase of main on |
| ConfigStore.SaveRecoversExactly | one/libshared/is_config.c:59-63 | that holds for all k if and only if the checksum tells every torn copy of the data from the data |
| ConfigStore.BootKeeps | one/libshared/is_config.c:99-128 | a start cut off anywhere does not change what the next start hands out, and a completed one leaves it in main |
| ConfigStore.RunRecovers | one/libshared/is_config.c:77-204 | over every run of starts and saves, each cut off anywhere, from flash that holds a configuration or none, a start hands out exactly what the saves amount to |
| ConfigStore.RunFromPowerUp | one/libshared/is_config.c:77-204 | the same for any flash at power-up, blank or damaged too |
| ConfigStore.SavedIsKept | one/libshared/is_config.c:77-204 | a completed save hands out the whole file, or its first DATA_SIZE bytes if it is longer; an interrupted one leaves what stood before up to the end of the backup phase and the new file after, however often the power fails in the starts that follow |
| ConfigStore.FirstSave | one/libshared/is_config.c:130-204 | from blank or damaged flash an interrupted save leaves the new configuration exactly when enough of the backup was written, and nothing before |
| ConfigStore.SaveWithoutRepairLoses | one/libshared/is_config.c:99-128 | why start repairs main: saving while only the backup is valid loses both at the first erase |
| Nand.FetchedStored | one/libshared/mtdutils.c:343-579 | reading the pages of a walk gives the data stored over them, when the walk does not run off the device |
| Nand.StoredAt | one/libshared/mtdutils.c:393-428 | byte o of page i of the walk is byte i * page + o of the data, and 0xFF behind its end |
| Nand.PagesExactly | one/libshared/mtdutils.c:376-395 | the number of pages is the least that holds the data |
| Nand.WalkEndsBehind | one/libshared/mtdutils.c:376-430 | a walk takes exactly that many pages and ends behind the last one |
| Nand.StoredElsewhere | one/libshared/mtdutils.c:343-430 | cells outside the pages of the walk keep their value |
| Nand.FitsExactly | one/libshared/mtdutils.c:376-391 | a walk succeeds if and only if the good pages from the start on are enough |
| Nand.GoodExactly | one/libshared/mtdutils.c:376-391 | no bad block is touched if and only if the start is on a block boundary or in a good block |
| Nand.WalkTakesEvery | one/libshared/mtdutils.c:376-391 | from a boundary or a good block no good page before the last one used is left out, so the pages are the first good ones |
| Nand.Device.Write | one/libshared/mtdutils.c:343-430 | errors, the cut at the end of the device, the pages written, their padding with 0xFF, and the next position |
| Nand.Device.Read | one/libshared/mtdutils.c:511-579 | errors, the same cut, the bytes of the same pages, and the next position |
| Nand.WriteThenRead | one/libshared/mtdutils.c:343-579 | reading the same start and size gives back all the data, or what lies before the end of the device; writing succeeds if and only if the start is a page on the device and the good pages are enough for that length; the positions differ by the padding |
| PortMap.PortTables.Survey | one/libshared/if_common.c:421-470 | the slots and types in use, and their extremes, with zero among them when the first port is not a known one |
| PortMap.PortTables.FillLine | one/libshared/if_common.c:501-581 | one slot and type: its ports at base plus number, nothing else above the base, its count, bitmap and extremes |
| PortMap.PortTables.Init | one/libshared/if_common.c:360-593 | for a product without gaps in slots and types, counted from zero when the first port is unknown, with ports numbered from 1, the tables are complete and stay in bounds; they never stay in bounds with a gap |
| PortMap.TableFitsExactly | one/libshared/if_common.c:472-486 | the last line written lies inside the allocated slot table if and only if every slot and every type of the span is in use |
| PortMap.SurveyFitsExactly | one/libshared/if_common.c:437-486 | for the extremes of the survey: if and only if neither slots nor types have gaps, counted from zero when the first port is not known |
| PortMap.UnknownFirstOverruns | one/libshared/if_common.c:437-460 | a product without gaps and with ports numbered from 1 whose first port is unknown, for which the last line lies outside the table |
| PortMap.OnePortIsRegular | one/libshared/if_common.c:360-593 | a product with one port meets what Init asks of a product |
| PortMap.PortHasNumber | one/libshared/if_common.c:851-895 | every port of the product has a logical number, and that number names the port |
| PortMap.KeptExactly | one/libshared/if_common.c:421-470 | a port takes part if and only if its slot and type lie between the limits, the limits included |
| PortMap.KeptAll | one/libshared/if_common.c:421-470 | a product between the limits keeps every port |
| PortMap.ProductHasNumbers | one/libshared/if_common.c:851-895 | a port of the product has a logical number if and only if it lies between the limits |
| PortMap.NumbersAscend | one/libshared/if_common.c:501-581 | logical numbers go up with the slot, then the type, then the panel number |
| PortMap.NumberHasPort | one/libshared/if_common.c:851-895 | every valid logical number names a port of the product, and that port has this number |
| PortMap.LogicalIsRightExactly | one/libshared/if_common.c:851-868 | a panel number names the port asked for if and only if it is one of the numbers of its slot and type; other numbers are taken when their sum with the base is valid |
| PortMap.OtherSlotsPort | one/libshared/if_common.c:851-868 | built tables in which panel port 2 of one slot is taken and is port 1 of the next slot |
| PortMap.BitmapsPartition | one/libshared/if_common.c:554-583 | the bitmaps of the lines are disjoint and together hold the valid numbers |
| PortMap.BitmapsAreWordsExactly | one/libshared/if_common.c:554-583 | all bitmaps are 32-bit words if and only if every valid number is below 32 |
| RangeText.PrintIsRead | one/libshared/if_common.c:4310-4327 | a printed number is digits and reads back as itself |
| RangeText.NextRange | one/libshared/if_common.c:4190-4255 | one pass of the parser finds the range before the next comma and takes or refuses it |
| RangeText.ParseRanges | one/libshared/if_common.c:4148-4279 | the parser computes the parse of the text: the bitmap, undefined after a shift beyond its word, a refusal, or no return; foreign characters are refused |
| RangeText.LoopEndsExactly | one/libshared/if_common.c:4264-4266 | the loop with a 16-bit index ends if and only if the upper end is not 65535 |
| RangeText.ReturnsExactly | one/libshared/if_common.c:4148-4279 | the parser returns if and only if no range that it accepts ends in 65535 |
| RangeText.EndlessInput | one/libshared/if_common.c:4240-4266 | a map and a text for which it does not return |
| RangeText.JoinIsRead | one/libshared/if_common.c:4185-4276 | for any list of ranges, printing and parsing gives the meaning of the list, refusals and the endless loop included |
| RangeText.TakenExactly | one/libshared/if_common.c:4190-4266 | a list of ranges is taken if and only if each fits its slot and starts behind the one before, and then it means the ports of all of them |
| RangeText.WrittenOut | one/libshared/if_common.c:4148-4279 | a text with all ten digits and the three separators |
| RangeText.SlotPbmpToStr | one/libshared/if_common.c:3663-3713 | the printer writes the maximal runs of the bitmap in ascending order, and nothing for an empty one |
| RangeText.RunsCover | one/libshared/if_common.c:3663-3713 | the runs hold exactly the bits |
| RangeText.RunsAscend | one/libshared/if_common.c:3663-3713 | the runs ascend with gaps between them |
| RangeText.PrintedIsRead | one/libshared/if_common.c:3663-4279 | printing a set of ports from 1 up and parsing it gives the set shifted by the base of its slot if and only if the ends of its runs are ports, and a refusal otherwise |
| PanelText.KnownIsLogical | one/libshared/if_common.c:4219-4249 | the parser's test of a port is the lookup in the port tables |
| PanelText.PanelPortsAreRead | one/libshared/if_common.c:3663-4279 | for built tables, printing any chosen panel ports of a slot and parsing the text gives exactly the logical ports that name them, as a word when the table has at most 32 numbers |
| Membership.Switch.VlanChangeProcess | one/libshared/if_common.c:2612-2732 | the hook calls of a VLAN change, in order |
| Membership.Switch.TrunkChangeProcess | one/libshared/if_common.c:2743-2779 | the hook calls of a trunk change, joins before leaves |
| Membership.Switch.Handle | one/libshared/if_common.c:2792-2922 | a sync message changes one entry and makes the calls of that change, or is refused; what it stores and calls is stated over whole runs by HandleAll, EventsInOrder and TrunkEventsInOrder |
| Membership.HearVlan | one/libshared/if_common.c:2612-2732 | folding the calls of a VLAN change turns the old entry into the new one |
| Membership.HearTrunk | one/libshared/if_common.c:2743-2779 | folding the calls of a trunk change turns the old members into the new ones |
| Membership.ListenerAgrees | one/libshared/if_common.c:2612-2922 | a listener that starts in agreement and folds every call holds exactly the stored sets after any messages; what those are, RunIsStored says |
| Membership.RunIsStored | one/libshared/if_common.c:2792-2922 | over any messages, each stored entry is what the last message for it said, and the others are unchanged |
| Membership.HandleAll | one/libshared/if_common.c:2792-2922 | after the switch handled any messages, the entry of each VLAN is the info of the last sync for it and the members and the LACP flag of each trunk are those of its last sync, or as at the start, and a listener that agreed agrees again |
| Membership.EventsInOrder | one/libshared/if_common.c:2612-2732 | create comes first, destroy last, joins name only new members and leaves only former ones |
| Membership.TrunkEventsInOrder | one/libshared/if_common.c:2743-2779 | trunk joins come before leaves, each with what changed, and nothing is called if and only if nothing changed |
| Membership.HooksFilter | one/libshared/if_common.c:2612-2732 | a switch without some hooks makes the calls to the others in the same order |
| Membership.SilentExactly | one/libshared/if_common.c:2612-2732 | nothing is called if and only if nothing changed |
| Membership.NeverBothExactly | one/libshared/if_common.c:2640-2718 | at no moment during the calls a port is seen tagged and untagged if and only if no port moves from untagged to tagged |
| Membership.SeenBoth | one/libshared/if_common.c:2640-2718 | a VLAN change for which a port is seen tagged and untagged between its two calls |
| Ipv6.In6Addr2Prefix | one/libshared/ipv6_common.c:135-162 | the buffer holds the prefix, and the call fails exactly for lengths outside 0 to 128 |
| Ipv6.MaskedAgrees | one/libshared/ipv6_common.c:151-159 | bytes masked by a shifted 0xff00 agree if and only if their first bits do |
| Ipv6.PrefixBits | one/libshared/ipv6_common.c:135-162 | a prefix keeps the first len bits of the address and clears the others |
| Ipv6.PrefixEqualExactly | one/libshared/ipv6_common.c:256-268 | prefixes are equal if and only if the first len bits agree |
| Ipv6.Interface.SetAll | one/libshared/ipv6_common.c:818-905 | the matching or first free entry takes what is set, or the table is full |
| Ipv6.Interface.FindPlace | one/libshared/ipv6_common.c:854-864 | the loop finds the entry that holds the key, else the first free one |
| Ipv6.Interface.ClearStatic | one/libshared/ipv6_common.c:728-762 | matching entries are zeroed, unless the interface takes its addresses from elsewhere; the result tells whether there was one |
| Ipv6.Interface.FindStatic | one/libshared/ipv6_common.c:950-968 | the number of matching entries |
| Ipv6.SetIsInsert | one/libshared/ipv6_common.c:854-878 | setting adds the address with its length to the set, keeps entries unique, and fails if and only if it is missing and the set has as many keys as the table entries |
| Ipv6.SetFields | one/libshared/ipv6_common.c:871-902 | the entry that then holds the key has every field that was set and keeps each that was not, and the others are unchanged |
| Ipv6.ClearFields | one/libshared/ipv6_common.c:728-762 | clearing zeroes every field of the matching entries and leaves the others |
| Ipv6.CompletedExactly | one/libshared/ipv6_common.c:847-852 | an address is completed if and only if its second half is zero and EUI-64 is on, and the MAC address can be read back from it |
| Ipv6.Eui64Example | one/libshared/ipv6_common.c:304-316 | the example of appendix A of RFC 4291 |
| Ipv6.ClearIsRemove | one/libshared/ipv6_common.c:747-755 | clearing removes it from the set |
| Ipv6.FindIsMember | one/libshared/ipv6_common.c:958-966 | for a specified address the count is one or zero and tells membership |
| Ipv6.RunIsBoundedSet | one/libshared/ipv6_common.c:728-905 | over any sequence of sets and clears the table is a bounded set |
| Ipv6.RunFromEmpty | one/libshared/ipv6_common.c:728-905 | from the empty table each address with its length occurs at most once |
| Base64.EncodeBytes | one/libshared/base64.c:45-73 | the encoding loop writes the base64 text |
| Base64.UpperLetters | one/libshared/base64.c:43-43 | the first 26 characters of the table are A to Z |
| Base64.LowerLetters | one/libshared/base64.c:43-43 | the next 26 are a to z |
| Base64.OtherLetters | one/libshared/base64.c:43-43 | the last twelve are 0 to 9, plus and slash |
| Base64.GroupsAreBits | one/libshared/base64.c:45-73 | the four groups are the 24 bits of three bytes in order |
| Base64.ShortAnswers | one/libshared/base64.c:45-73 | the examples of RFC 4648 for one, two and three bytes, padding included |
| Base64.EncodedSize | one/libshared/base64.c:111-114 | its length is the announced one |
| Base64.DecodeBytes | one/libshared/base64.c:75-109 | the decoding loop computes the decoding |
| Base64.DecodedFits | one/libshared/base64.c:116-119 | no input decodes to more than the announced length |
| Base64.DecodeUndoesEncode | one/libshared/base64.c:45-109 | decoding an encoding gives the bytes |
| Base64.ForeignIgnored | one/libshared/base64.c:87-91 | characters outside the table other than the padding sign and NUL change nothing, wherever they stand |
| Base64.SprinkledRoundTrip | one/libshared/base64.c:45-109 | an encoding with such characters put in anywhere decodes to the bytes |
| Base64.NulIsNotIgnored | one/libshared/base64.c:88-92 | a NUL between characters changes what they decode to |
| Base64.HarmlessExactly | one/libshared/base64.c:87-92 | a byte can be put anywhere without changing any decoding if and only if it is outside the table, not the padding sign and not NUL |
| Crc8.Crc8 | one/libshared/misc.c:1033-1052 | the nested loops compute the remainder, and zero for an empty message |
| Crc8.CrcIsRemainder | one/libshared/misc.c:1033-1052 | from zero the result is the remainder of the message times x^8 by x^8 + x^5 + x^4 + 1, by long division |
| Crc8.StartIsMixedIn | one/libshared/misc.c:1041-1050 | another start counts like a difference in the first byte |
| Crc8.CrcJoins | one/libshared/misc.c:1041-1050 | the remainder of a concatenation continues from the remainder of the first part |
| Crc8.OneByteShows | one/libshared/misc.c:1033-1052 | changing one byte always changes the result |
| Crc8.ResultJoinsExactly | one/libshared/misc.c:1037-1039 | results can be chained over parts if and only if no part is empty or its zero happens to be right |
| Led.LedPanel.LedconByEvent | one/libshared/ledcon.c:1216-1286 | the first fitting line decides the state; the state is stored and shown when it was set |
| Led.LedPanel.ShowState | one/libshared/ledcon.c:1259-1280 | the lights are those of the state |
| Led.TaskTells | one/libshared/ledcon.c:1084-1172 | no line of the table goes against what its event tells about Ethernet |
| Led.EventMeans | one/libshared/ledcon.c:1084-1172 | for every state and event the next state, event by event |
| Led.LightsMean | one/libshared/ledcon.c:1174-1213 | what each light shows in each state on both models |
| Led.DialIsUpExactly | one/libshared/ledcon.c:1084-1172 | the connection is shown as up if and only if some dial-up was taken and every later event left it standing |
| Led.RunShowsDial | one/libshared/ledcon.c:1084-1286 | after any events the green light is on if and only if the connection stands so and Ethernet is not up |
| Led.LastEthernetMeans | one/libshared/ledcon.c:1084-1172 | the last Ethernet event was up if and only if some up event is followed by no other Ethernet event |
| Led.RunShowsEthernet | one/libshared/ledcon.c:1084-1286 | after any events the state shows Ethernet up, and the blue or yellow light is on, if and only if the last Ethernet event was up |

## Left out

- Files, sockets, ioctl, GPIO and shell calls: opens, allocations and complete transfers are taken to succeed; a device is its contents.
- The CBC macro, bin2str, str2bin, cmdsep and the boot loader's checksum: their bodies are not part of this model; CBC follows NIST SP 800-38A, the hex functions are inverse coders, and the checksum is a parameter.
- `aes.c` build variants: the four-table variant is modelled; partial and full unrolling of the rounds perform the same rounds, and the loop form is the one modelled.
- Aes.AesContext.constructor: the capacity of 120 words is that of the largest schedule, and aes.h, which fixes the array sizes, is not part of this model.
- Aes.AesContext.Pass8: the words of the longest pass are stored in two methods, in the order of the source.
- CryptFile.CryptFile: a line that contains NUL after the mark is read up to the NUL, as the source does; read errors are not modelled. A sum or a number read that overflows an int is taken to wrap.
- HashStream.HashContext.End: the pointer through which the length is stored is not initialised in the source; the direct store of the other branch is modelled.
- HashStream.HashContext.Hash: the byte order conversions of the words are part of the block functions, for a little-endian host.
- Md5Words.Md5WordsContext.BlockDataOrder: loads and macro calls are interleaved in the source; the loads come first here. The upper halves of 64-bit registers are not modelled.
- Md5Rounds.Unrolled: the calls are made in groups of four, and one list of calls serves both implementations, whose lists are the same. The two middle size variants of `hash_md5_sha.c`, loops over the same calls, are not modelled.
- Sha512Stream.Sha512Context.End: the counter words are numbers below 2^64, made 64-bit words where the length is stored; the same pointer is not initialised here.
- ConfigStore.Partition.Erase: erasing one sector is a single step; a sector caught half erased is not modelled. Sectors are 64 KiB, and the branch that skips bad blocks of NAND is left out here.
- ConfigStore.ConfigStore.Save: the eMMC path, whose erase writes zeros.
- Nand.Device.Write: NAND cells take what is written; that pages must be erased first, and spare areas, are not modelled.
- PortMap.PortTables.Init: modules are flattened into one list of ports, with a flag that tells whether the first module has a port; CPU, cascade and chip tables are left out, and an access outside a table ends the method instead of being undefined.
- RangeText.ParseRanges: the interface type is a parameter, because cmdsep, which splits it off, is not part of this model; numbers are cut to 16 bits as the source does, also those beyond an int, for which atoi is undefined.
- Membership.Switch.Handle: other fields of VLAN and trunk entries, and the port and G8032 messages.
- Ipv6.Interface.SetAll: link-local address, DNS servers and the dynamic table, which the same loop serves.
- Crc8.Crc8: the bytes of the message are taken as unsigned char.
- Led.LedPanel.LedconByEvent: the state file holds a state or nothing; the lights are three values.
- License tables, factory settings, interface display, i18n, LLDP, G8032 and RSTP accessors, process and lock helpers: plumbing or table data.
- encode_file and decode_file: no round trip to prove, since backslash and NUL bytes are not coded.
