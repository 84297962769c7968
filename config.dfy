/** The configuration loader: `load_config` in echoecho.py. Opening the
    file and decoding its JSON are I/O and appear only through their
    outcome, a `Read`. */
module Config {
  import opened Wrappers
  import opened Json

  /** What `open` followed by `json.load` produced. */
  datatype Read =
    | NotFound            // FileNotFoundError
    | BadJson             // json.JSONDecodeError
    | ReadFailed          // any other exception while reading or decoding
    | Decoded(doc: Json)

  /** Why no configuration was obtained; each reason is one printed diagnostic. */
  datatype ConfigError =
    | FileNotFound        // "[WARNING] Config file ... not found!"
    | ParseError          // "[ERROR] Error parsing config file ..."
    | Unexpected          // "[ERROR] Unexpected error loading config ..."
    | PortsMissing        // "[ERROR] 'ports' key missing or not a list ..."

  /** The result of loading: the whole decoded dict, or none and why. */
  datatype Loaded = Loaded(config: map<string, Json>) | NoConfig(error: ConfigError)

  /** The document shape the loader accepts: a dict whose "ports" is a list. */
  predicate HasPortsList(doc: Json) {
    doc.Object? && "ports" in doc.fields && doc.fields["ports"].Array?
  }

  /** Python's `needle in hay` on two strings: a substring test. */
  predicate IsSubstring(needle: string, hay: string)
    decreases |hay|
  {
    needle <= hay || (hay != [] && IsSubstring(needle, hay[1..]))
  }

  /** The needle sits at position `i` of the hay. */
  predicate OccursAt(needle: string, hay: string, i: int) {
    0 <= i && i + |needle| <= |hay| && hay[i..i + |needle|] == needle
  }

  /** The substring test finds the needle at some position of the hay. */
  lemma {:induction false} SubstringTest(needle: string, hay: string)
    ensures IsSubstring(needle, hay) <==> exists i :: OccursAt(needle, hay, i)
    decreases |hay|
  {
    if needle <= hay {
      assert OccursAt(needle, hay, 0);
    } else if hay != [] {
      SubstringTest(needle, hay[1..]);
      if exists i :: OccursAt(needle, hay, i) {
        var i :| OccursAt(needle, hay, i);
        assert i != 0;
        assert OccursAt(needle, hay[1..], i - 1);
      }
      if IsSubstring(needle, hay[1..]) {
        var i :| OccursAt(needle, hay[1..], i);
        assert OccursAt(needle, hay, i + 1);
      }
    } else {
      assert needle != [];
    }
  }

  /** Python's `key in doc` for a decoded document: a key test on a dict,
      an element test on a list, a substring test on a string; None where
      `in` raises TypeError (numbers, booleans, null). */
  function Membership(doc: Json, key: string): Option<bool> {
    match doc
    case Object(fields) => Some(key in fields)
    case Array(items) => Some(Str(key) in items)
    case Str(s) => Some(IsSubstring(key, s))
    case _ => None
  }

  /** `load_config`: the decoded dict when its "ports" is a list, and no
      configuration (with the diagnostic the source prints) otherwise. A
      list or string document that passes the `in` test makes
      `config['ports']` raise TypeError, which the catch-all reports. */
  function LoadConfig(read: Read): (r: Loaded)
    ensures r.Loaded? <==> read.Decoded? && HasPortsList(read.doc)
    ensures r.Loaded? ==> r.config == read.doc.fields && |r.config| > 0
    ensures read.NotFound? ==> r == NoConfig(FileNotFound)
    ensures read.BadJson? ==> r == NoConfig(ParseError)
    ensures read.ReadFailed? ==> r == NoConfig(Unexpected)
    ensures read.Decoded? && read.doc.Object? && !HasPortsList(read.doc) ==> r == NoConfig(PortsMissing)
    // Documents that are not dicts: the `in` test decides the diagnostic.
    ensures read.Decoded? && read.doc.Array? ==>
              r == NoConfig(if Str("ports") in read.doc.items then Unexpected else PortsMissing)
    ensures read.Decoded? && read.doc.Str? ==>
              r == NoConfig(if IsSubstring("ports", read.doc.s) then Unexpected else PortsMissing)
    ensures read.Decoded? && (read.doc.Null? || read.doc.Bool? || read.doc.Int? || read.doc.Float?) ==>
              r == NoConfig(Unexpected)
  {
    match read
    case NotFound => NoConfig(FileNotFound)
    case BadJson => NoConfig(ParseError)
    case ReadFailed => NoConfig(Unexpected)
    case Decoded(doc) =>
      match Membership(doc, "ports")
      case None => NoConfig(Unexpected)
      case Some(present) =>
        if !present then NoConfig(PortsMissing)
        else if !doc.Object? then NoConfig(Unexpected)
        else if !doc.fields["ports"].Array? then NoConfig(PortsMissing)
        else
          assert "ports" in doc.fields.Keys;
          Loaded(doc.fields)
  }

  /** The list of port entries of a loaded configuration. */
  function Ports(loaded: Loaded): seq<Json>
    requires loaded.Loaded? && "ports" in loaded.config && loaded.config["ports"].Array?
  {
    loaded.config["ports"].items
  }
}
