/** convert_to_json_stream.py: the older copy of the JSON-stream
    converter. Its format decision, stream reader, CSV row normalisation and
    output-name rule are those of the JsonStream module; it differs in how
    it decodes cells and in how it chooses an encoding. */
module ConvertToJsonStream {
  import opened Wrappers
  import opened PyText
  import opened JsonValue
  import opened RestCommon
  import opened JsonStream

  /** Cells are decoded with the detected encoding and nothing more;
      header cells are also lower-cased. */
  function PlainDecoding(decode: string -> string, lower: string -> string,
                         nfkc: string -> string, parseInt: string -> Option<int>): (dec: Decoding)
    ensures forall s :: dec.header(s) == lower(decode(s))
    ensures forall s :: dec.cell(s) == decode(s)
    ensures dec.nfkc == nfkc && dec.parseInt == parseInt
  {
    Decoding(s => lower(decode(s)), decode, nfkc, parseInt)
  }

  /** `detect_file_encoding(filename)`: chardet's guess, UTF-8 when it has
      none, MacRoman when it says exactly ISO-8859-2, and ISO-8859-1 for a
      codec Python does not know. */
  method DetectFileEncoding(detected: Option<string>, known: string -> bool) returns (encoding: string)
    ensures known(encoding) || encoding == "iso-8859-1"
    ensures detected.None? ==> encoding == (if known("utf-8") then "utf-8" else "iso-8859-1")
    ensures detected == Some("ISO-8859-2") ==> encoding == (if known("macroman") then "macroman" else "iso-8859-1")
    ensures detected.Some? && detected != Some("ISO-8859-2") ==>
      encoding == (if known(detected.value) then detected.value else "iso-8859-1")
  {
    if detected.None? {
      encoding := "utf-8";
    } else if detected.value == "ISO-8859-2" {
      encoding := "macroman";
    } else {
      encoding := detected.value;
    }
    if !known(encoding) {
      encoding := "iso-8859-1";
    }
  }

  /** `transcode(input_filename, output_filename)`: the output always goes
      to a named file, renamed from `.json` to `.jsons`, one line per
      entry up to the first entry that cannot be read. */
  function Transcode(file: InputFile, output: string, json: JsonReaders, dec: Decoding, dumps: Json -> string): (r: (string, seq<string>, Option<Failure>))
    ensures r.0 == OutputName(output) && !EndsWith(r.0, ".json")
    ensures |r.1| == |Entries(file, json, dec).0|
    ensures forall i :: 0 <= i < |r.1| ==> r.1[i] == dumps(Entries(file, json, dec).0[i])
    ensures r.2 == Entries(file, json, dec).1
  {
    var (entries, error) := Entries(file, json, dec);
    (OutputName(output), seq(|entries|, i requires 0 <= i < |entries| => dumps(entries[i])), error)
  }
}
