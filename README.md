# osc_gen WAV sample codec, modelled in Dafny

This project models the PCM-16 sample codec of `osc_gen/wavfile.py`, the module of
osc_gen that reads and writes mono 16-bit WAV files as normalised float buffers.

- `Pcm16` (`pcm16.dfy`) covers signed 16-bit values and their little-endian
  two's-complement byte layout. This is the `'<h'` format of Python's `struct`.
  It gives packing and unpacking of one value and of whole buffers, with both
  round trips proved.
- `SampleCodec` (`codec.dfy`) covers the encoder `_float_to_ibytes`. Each sample
  is scaled by 32768, truncated toward zero, clipped to [-32768, 32767] and packed.
  The module also covers the decoder `_ibytes_to_float`: it unpacks and divides by
  32768. The decoder appears twice. `DecodeAsWritten` follows the code, which
  counts `len / 4` samples. `Decode` is the corrected version, which counts
  `len / 2` (see Findings).
- `WavWriter` (`writer.dfy`) covers `write` and `write_wavetable`. An open output
  file is a `WaveWriter` object, modelled on Python's `wave` module. It holds the
  parameters set by `setframerate`, `setnchannels` and `setsampwidth`, whether the
  header has been written, the data length the header records, and the frame
  bytes written so far. The setters refuse bad values and refuse any change once
  frame data has been written. The first `writeframes` (or `close`) writes the
  header. That fails when a parameter is unset or a field is out of range for its
  32-bit or 16-bit format. Each `writeframes` then appends its bytes and patches
  the header's length fields, which fails once the RIFF length (36 plus the frame
  bytes) reaches 2^32. So a mono 16-bit write succeeds exactly when the rate is in
  (0, 2^31) and 36 + 2 * (number of samples) < 2^32. `WriteWavetable` loops over
  the waves, and its result is proved equal to `FrameStream`, the in-order
  concatenation of the waves' encodings. Lemmas show that this stream is the
  encoding of all samples run together, and that wave k's bytes sit right after
  those of waves 0..k-1.

Samples are Dafny `real`s. Multiplying or dividing by 32768 = 2^15 is exact in
binary floating point, and so is truncation, for the finite values admitted
here. The model therefore computes exactly what the float code computes.

The decoder's only caller, `_read_using_wave` (osc_gen/wavfile.py:42-43), passes it
every frame of a file already checked to be mono and 16-bit, so the decoder is meant
to unpack `len / 2` values. The code counts `len / 4` values, so it fails on every
non-empty buffer. The model follows the code in `DecodeAsWritten` and states the
intended behaviour in `Decode`.

## Model

| member | source | states |
|---|---|---|
| `Pcm16.PackInt16` | osc_gen/wavfile.py:22 | one value packs to exactly two bytes, and the high (second) byte has its top bit set exactly when the value is negative |
| `Pcm16.UnpackInt16` | osc_gen/wavfile.py:29 | every byte pair unpacks to a value in [-32768, 32767], negative exactly when the high byte is at least 128 |
| `Pcm16.UnpackPackInt16` | osc_gen/wavfile.py:29 | unpacking the two bytes of a packed 16-bit value gives the value back |
| `Pcm16.PackUnpackInt16` | osc_gen/wavfile.py:22 | packing the value unpacked from any byte pair gives the same pair back, so the layout is a bijection |
| `Pcm16.Pack` | osc_gen/wavfile.py:22 | packing n values gives exactly 2n bytes |
| `Pcm16.Unpack` | osc_gen/wavfile.py:29 | unpacking 2n bytes gives n values, all in 16-bit range |
| `Pcm16.PackAt` | osc_gen/wavfile.py:22 | value i occupies bytes 2i and 2i+1 of the packed buffer, in input order |
| `Pcm16.PackLayout` | osc_gen/wavfile.py:22 | byte 2i is (v mod 65536) mod 256 and byte 2i+1 is (v mod 65536) div 256 for the i-th value v |
| `Pcm16.PackAppend` | osc_gen/wavfile.py:22 | packing a concatenation equals concatenating the packings |
| `Pcm16.UnpackPack` | osc_gen/wavfile.py:29 | unpacking a packed buffer returns the original values |
| `Pcm16.PackUnpack` | osc_gen/wavfile.py:22 | packing an unpacked even-length buffer returns the original bytes |
| `SampleCodec.TruncateTowardZero` | osc_gen/wavfile.py:20 | the result lies between 0 and x, less than 1 away from x, on the same side of zero (truncation, not floor or rounding) |
| `SampleCodec.Clip` | osc_gen/wavfile.py:21 | the result is in 16-bit range; an in-range value is unchanged; values above or below are pinned to 32767 or -32768 |
| `SampleCodec.Quantize` | osc_gen/wavfile.py:20-21 | a sample of at least 1.0 gives 32767, of at most -1.0 gives -32768, and one in [-1, 1) gives its truncated scaled value, less than 1 from x*32768, unchanged by the clip |
| `SampleCodec.QuantizeTruncates` | osc_gen/wavfile.py:20 | 0.99999 gives 32767 and -0.00001 gives 0; 0.00005 and -0.00005 give 1 and -1, where rounding would give 2 and -2 |
| `SampleCodec.QuantizeAll` | osc_gen/wavfile.py:19-21 | one value per sample, every value in 16-bit range |
| `SampleCodec.Encode` | osc_gen/wavfile.py:15-22 | n samples encode to exactly 2n bytes |
| `SampleCodec.Dequantize` | osc_gen/wavfile.py:30-31 | a 16-bit value maps into [-1, 32767/32768], and multiplying back by 32768 gives the value exactly |
| `SampleCodec.DequantizeAll` | osc_gen/wavfile.py:30-32 | one sample per value, every sample in [-1, 32767/32768] |
| `SampleCodec.DecodeAsWritten` | osc_gen/wavfile.py:25-32 | with the sample count taken as len/4, the decoder succeeds exactly on the empty buffer and otherwise raises a size mismatch that asks for 2*(len/4) bytes |
| `SampleCodec.Decode` | osc_gen/wavfile.py:25-32 | with the count taken as len/2, decoding succeeds exactly on even-length buffers, gives len/2 samples in [-1, 32767/32768], and an odd length reports the size mismatch |
| `SampleCodec.EncodeLayout` | osc_gen/wavfile.py:18-22 | sample i's quantised value occupies bytes 2i (low) and 2i+1 (high) of the encoding, as (v mod 65536) mod 256 and div 256 |
| `SampleCodec.EncodeAppend` | osc_gen/wavfile.py:22 | encode(a ++ b) == encode(a) ++ encode(b) |
| `SampleCodec.DecodeEncode` | osc_gen/wavfile.py:15-32 | decoding an encoding succeeds and gives each sample's quantised value divided by 32768 |
| `SampleCodec.DecodeEncodeWithinStep` | osc_gen/wavfile.py:20-31 | after an encode and decode, a sample in [-1, 1) comes back less than 1/32768 away; a sample >= 1 comes back as 32767/32768 and one <= -1 as -1 |
| `SampleCodec.EncodeDecode` | osc_gen/wavfile.py:15-32 | decoding any even-length buffer and encoding the result gives back the same bytes |
| `SampleCodec.ScenarioRoundTrip` | osc_gen/wavfile.py:15-32 | [0, 0.5, 1, 0.5, 0, -0.5, -1, -0.5] decodes back with 1.0 lowered to 32767/32768, while the decoder as written raises for its 16 bytes, asking for 8 |
| `WavWriter.InitialDataLength` | osc_gen/wavfile.py:73 | the data length the first header records is the whole frames of the first data: never more than its length, and all of it when the length is a multiple of the frame size |
| `WavWriter.HeaderError` | osc_gen/wavfile.py:73-74 | writing the header reports `ParameterNotSet` exactly when the rate, channel count or sample width is unset, and otherwise `FieldOverflow` or nothing; it succeeds only when the channel count and block align fit 16 bits and the byte rate fits 32 bits |
| `WavWriter.PatchError` | osc_gen/wavfile.py:85 | patching the length fields fails exactly when the recorded length differs from the bytes written and 36 + bytes written reaches 2^32, and then with `FieldOverflow` |
| `WavWriter.WriteOutcome` | osc_gen/wavfile.py:66-74 | a mono 16-bit write of n samples succeeds exactly when the rate is in (0, 2^31) and 36 + 2n < 2^32; a rate <= 0 gives `BadFrameRate`, any other failure `FieldOverflow` |
| `WavWriter.WriteOutcomeGrows` | osc_gen/wavfile.py:84-85 | a write of m samples that fails makes every longer write fail with the same error |
| `WavWriter.PatchAgreesWithWriteOutcome` | osc_gen/wavfile.py:84-85 | after m samples were written successfully, patching for n >= m samples fails exactly as a single write of n samples would |
| `WavWriter.WaveWriter.constructor` | osc_gen/wavfile.py:80 | a newly opened file has no frame rate, channel count or sample width set, no header written, no data length recorded and no frames |
| `WavWriter.WaveWriter.SetFrameRate` | osc_gen/wavfile.py:81 | `setframerate` stores a positive rate, refuses a rate <= 0 and refuses any change once frame data has been written, leaving the rate unchanged when it refuses |
| `WavWriter.WaveWriter.SetChannels` | osc_gen/wavfile.py:82 | `setnchannels` stores a count of at least 1, refuses fewer and refuses any change once frame data has been written |
| `WavWriter.WaveWriter.SetSampleWidth` | osc_gen/wavfile.py:83 | `setsampwidth` stores a width of 1 to 4 bytes, refuses others and refuses any change once frame data has been written |
| `WavWriter.WaveWriter.EnsureHeaderWritten` | osc_gen/wavfile.py:85-86 | the first call reports the header error and, on success, marks the header written and records the whole frames of the given length; later calls change nothing |
| `WavWriter.WaveWriter.PatchHeader` | osc_gen/wavfile.py:85-86 | the recorded length becomes the bytes written unless the patch fails, in which case it is left as it was |
| `WavWriter.WaveWriter.WriteFrames` | osc_gen/wavfile.py:85 | when the header cannot be written nothing changes; otherwise the bytes are appended with nothing in between, then the length fields are patched, and a patch that overflows is reported with the bytes already appended |
| `WavWriter.WaveWriter.Close` | osc_gen/wavfile.py:86 | `close` writes the header if it was not, recording no data, with the same possible header error, then patches stale length fields with the same possible overflow |
| `WavWriter.Write` | osc_gen/wavfile.py:66-74 | the outcome is that of a mono 16-bit write of the buffer's length at the rate (default 44100); on failure no frames are written; otherwise the file is mono, 16-bit, at that rate, its frames are the encoding of the buffer and the header records their length |
| `WavWriter.WriteWavetable` | osc_gen/wavfile.py:77-86 | the outcome is that of a mono 16-bit write of all the table's samples; on failure the frames written so far begin the table's frame stream; otherwise the file is mono, 16-bit, at that rate, its frames are each wave's encoding appended in order and the header records their length |
| `WavWriter.FrameStream` | osc_gen/wavfile.py:84-85 | the reference the wavetable loop is checked against: each wave's encoding appended in order, 2 bytes per sample of all the waves |
| `WavWriter.FrameStreamIsEncodeOfFlatten` | osc_gen/wavfile.py:84-85 | the wavetable frame stream equals the encoding of all samples of all waves run together, 2 bytes per sample, with no separators |
| `WavWriter.FrameStreamPrefix` | osc_gen/wavfile.py:84-85 | the frame stream of the first j waves is a prefix of the whole stream |
| `WavWriter.WaveAt` | osc_gen/wavfile.py:84-85 | wave k's encoding occupies the bytes directly after the 2-byte groups of waves 0..k-1 |

## Findings

| source | as written | input that shows it | evidently intended | confidence | as-written member | corrected member |
|---|---|---|---|---|---|---|
| osc_gen/wavfile.py:28 | the sample count is `int(len / 4)`, but a mono 16-bit sample is 2 bytes, so `struct.unpack` asks for half the buffer and raises | any non-empty buffer, for example the 16 bytes encoding [0, 0.5, 1, 0.5, 0, -0.5, -1, -0.5]: 8 bytes are asked for | `len / 2` samples, so that decoding inverts the encoder | high; not executed | `SampleCodec.DecodeAsWritten` (with `SampleCodec.ScenarioRoundTrip`) | `SampleCodec.Decode` (with `SampleCodec.DecodeEncode`, `SampleCodec.EncodeDecode`) |

## Left out

- `read` (osc_gen/wavfile.py:46-63): mean-centering and peak normalisation are inexact floating-point arithmetic. A constant buffer also divides by zero there. The `soundfile` decode path and its first-channel selection call a foreign library.
- `_read_using_wave` (osc_gen/wavfile.py:35-43): the channel and sample-width checks read file headers, which is file I/O. Its call to the decoder is modelled by `SampleCodec.DecodeAsWritten`.
- The WAV container's bytes are not modelled: the header's layout, the positions of the length fields that `writeframes` and `close` patch, and I/O errors from opening, seeking in or writing the file. A `WaveWriter` keeps the parameters, whether the header has been written, the data length the header records, and the frame bytes. The `wave` module's parameter checks, the range of every field the header packs, and the overflow of the patched length fields are modelled.
- `setnframes`, `setcomptype` and the frame counter of the `wave` module are not used by osc_gen and are not modelled; the first header's data length is taken from the first data, as it is when no frame count was set.
- `SampleCodec.Quantize`: requires -2^48 <= x < 2^48, so that the scaled value fits a 64-bit integer. The model assumes numpy's default integer, the target of `astype('int')`, is 64 bits wide. Where it is 32 bits (C `long` on Windows with NumPy before 2.0, and on 32-bit builds), a sample in [65536, 2^48) or in [-2^48, -65536) overflows that cast. The clip result is then platform-dependent, not the 32767 or -32768 the model states. Outside the bound, and for NaN or infinities, the cast is platform-dependent everywhere. Samples are exact reals, so NaN and infinities cannot be expressed.
- `WavWriter.WaveWriter.WriteFrames`: the model assumes a little-endian host. The `wave` module byteswaps frame data on big-endian hosts, so only on a little-endian host are the file's frame bytes exactly the `'<h'` bytes passed in.
- `SampleCodec.DecodeAsWritten`: treats `int(len / 4)` as exact floor division. Python's float division is exact for every buffer shorter than 2^53 bytes.
- The wavetable collaborator's `get_waves()` is external. The waves are given as a sequence of sample sequences, and their lengths are not constrained, as in the source.
