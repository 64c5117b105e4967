/**
  Loading the SSH public key(s) the server hands out. A key file holds a line
  `<type> <key> <host>`; the server keeps `<type> <key>` and drops the host
  comment (httpserver/server.go:51-56).

  The repository does not agree with itself about how many keys there are:
  the configuration has one `SSHPubkeyPath` and the server one `sshPubkey`
  field (httpserver/server.go:31,39), the key handler writes a field
  `sshPubkeys` (httpserver/handler.go:21), and the handler test configures
  `SSHPubkeyPaths` with two paths and expects both keys back separated by one
  newline (httpserver/handler_test.go:35,48-51). This module follows the test:
  one read per configured path, each normalised as server.go does with one
  key, the results joined with '\n'. With a single path it is server.go's
  behaviour, except that a key file with fewer than two fields makes
  server.go panic where the model returns `KeyTooFewFields`.
 */
module Pubkey {
  import opened Wrappers
  import opened Bytes

  /** The outcome of reading one key file. */
  datatype ReadResult = Read(contents: seq<byte>) | ReadError

  /**
    Why constructing a server stops. `KeyTooFewFields` is not a returned error
    in the source: slicing `bytes.Fields(...)[0:2]` of fewer than two fields
    panics at run time; the model reports it instead of ending the process.
   */
  datatype NewError = MetricsInitFailed | KeyReadFailed(path: string) | KeyTooFewFields(path: string)

  /** The key file has at least the `<type>` and `<key>` fields. */
  predicate HasKeyFields(raw: seq<byte>) {
    |Fields(raw)| >= 2
  }

  /** The key file was read and can be normalised. */
  predicate Loadable(f: ReadResult) {
    f.Read? && HasKeyFields(f.contents)
  }

  /**
    The first two white-space-separated fields of the key file joined by one
    space: no leading or trailing white space, no newline, exactly one space.
   */
  function NormalizeKey(raw: seq<byte>): (key: seq<byte>)
    requires HasKeyFields(raw)
    ensures key == Fields(raw)[0] + [Space] + Fields(raw)[1]
    ensures |key| >= 3
    ensures !IsSpace(key[0]) && !IsSpace(key[|key| - 1])
    ensures Newline !in key
    ensures key[|Fields(raw)[0]|] == Space
    ensures forall i :: 0 <= i < |key| && i != |Fields(raw)[0]| ==> !IsSpace(key[i])
  {
    var fs := Fields(raw);
    var key := fs[0] + [Space] + fs[1];
    assert fs[..2][1..] == [fs[1]];
    assert Join(fs[..2], [Space]) == key;
    assert forall i :: 0 <= i < |key| && i != |fs[0]| ==> !IsSpace(key[i]) by {
      forall i | 0 <= i < |key| && i != |fs[0]|
        ensures !IsSpace(key[i])
      {
        if i < |fs[0]| {
          assert key[i] == fs[0][i];
        } else {
          assert key[i] == fs[1][i - |fs[0]| - 1];
        }
      }
    }
    Join(fs[..2], [Space])
  }

  /** Normalisation keeps exactly the first two fields of the key file. */
  lemma NormalizeKeyFields(raw: seq<byte>)
    requires HasKeyFields(raw)
    ensures Fields(NormalizeKey(raw)) == Fields(raw)[..2]
  {
    var fs := Fields(raw);
    FieldsOfJoin(fs[..2]);
  }

  /** Normalising an already normalised key changes nothing. */
  lemma NormalizeKeyIdempotent(raw: seq<byte>)
    requires HasKeyFields(raw)
    ensures HasKeyFields(NormalizeKey(raw))
    ensures NormalizeKey(NormalizeKey(raw)) == NormalizeKey(raw)
  {
    var fs := Fields(raw);
    var key := NormalizeKey(raw);
    NormalizeKeyFields(raw);
    assert Fields(key) == [fs[0], fs[1]];
  }

  /**
    The body of the key endpoint: the keys in path order, one newline between
    each two. A single key is served as it is, as server.go serves its one key;
    no key gives an empty body.
   */
  function ServedKeys(keys: seq<seq<byte>>): (body: seq<byte>)
    ensures |keys| == 0 ==> body == []
    ensures |keys| == 1 ==> body == keys[0]
    ensures |keys| >= 2 ==> |body| > |keys[0]| && body[..|keys[0]|] == keys[0] && body[|keys[0]|] == Newline
  {
    Join(keys, [Newline])
  }

  /** What construction reports about the first key file that cannot be used. */
  function LoadError(path: string, f: ReadResult): NewError
    requires !Loadable(f)
  {
    if f.ReadError? then KeyReadFailed(path) else KeyTooFewFields(path)
  }

  /**
    Reads and normalises the key files in path order, stopping at the first
    one that cannot be read or has fewer than two fields.
   */
  function LoadKeys(paths: seq<string>, files: seq<ReadResult>): (r: Result<seq<seq<byte>>, NewError>)
    requires |paths| == |files|
    ensures r.Ok? <==> forall i :: 0 <= i < |files| ==> Loadable(files[i])
    ensures r.Ok? ==> |r.value| == |files|
    ensures r.Ok? ==> forall i :: 0 <= i < |files| ==> Loadable(files[i]) && r.value[i] == NormalizeKey(files[i].contents)
    ensures r.Err? ==> exists i :: 0 <= i < |files| && !Loadable(files[i]) && r.error == LoadError(paths[i], files[i])
                                   && forall j :: 0 <= j < i ==> Loadable(files[j])
    decreases |files|
  {
    if files == [] then Ok([])
    else if files[0].ReadError? then Err(KeyReadFailed(paths[0]))
    else if !HasKeyFields(files[0].contents) then Err(KeyTooFewFields(paths[0]))
    else
      var rest := LoadKeys(paths[1..], files[1..]);
      match rest
      case Err(e) =>
        assert forall i :: 1 <= i < |files| ==> files[i] == files[1..][i - 1];
        Err(e)
      case Ok(keys) =>
        Ok([NormalizeKey(files[0].contents)] + keys)
  }

  /**
    The served body splits back, at each newline, into the normalised keys in
    path order, and it neither starts nor ends with a newline.
   */
  lemma ServedKeysRoundTrip(keys: seq<seq<byte>>)
    requires |keys| >= 1
    requires forall k :: 0 <= k < |keys| ==> |keys[k]| > 0 && Newline !in keys[k]
    ensures Split(ServedKeys(keys), Newline) == keys
    ensures |ServedKeys(keys)| > 0
    ensures ServedKeys(keys)[0] != Newline
    ensures ServedKeys(keys)[|ServedKeys(keys)| - 1] != Newline
  {
    SplitJoin(keys, Newline);
    var body := ServedKeys(keys);
    var first, last := keys[0], keys[|keys| - 1];
    JoinEndsWithLast(keys, [Newline]);
    assert body[0] == first[0] by {
      assert body[..|first|][0] == first[0];
    }
    assert body[|body| - 1] == last[|last| - 1] by {
      assert body[|body| - |last|..][|last| - 1] == last[|last| - 1];
    }
  }

  /**
    When every key file loads, the served body is the normalised keys joined by
    newlines: splitting it at newlines gives each file's `<type> <key>` in path order.
   */
  lemma LoadedKeysServed(paths: seq<string>, files: seq<ReadResult>)
    requires |paths| == |files| >= 1
    requires forall i :: 0 <= i < |files| ==> Loadable(files[i])
    ensures LoadKeys(paths, files).Ok?
    ensures |Split(ServedKeys(LoadKeys(paths, files).value), Newline)| == |files|
    ensures forall i :: 0 <= i < |files| ==> Split(ServedKeys(LoadKeys(paths, files).value), Newline)[i] == NormalizeKey(files[i].contents)
  {
    var keys := LoadKeys(paths, files).value;
    ServedKeysRoundTrip(keys);
  }
}
