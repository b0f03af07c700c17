/** Ingestion of a folder of images into `Element`s (nodes/Datagen.py).
    The directory listing, `os.path.isfile` and `cv2.imread` are given as data. */
module DataGen {
  import opened Wrappers
  import opened Seqs
  import opened Elements

  /** What `cv2.imread` does with a file: decodes it, returns `None`, or raises. */
  datatype ReadResult = Decoded(img: Image) | NotAnImage | ReadRaises

  /** One name of `os.listdir`, whether it is a regular file, and how reading it ends. */
  datatype Entry = Entry(name: string, isFile: bool, read: ReadResult)

  /** `str.lower` on the ASCII letters. */
  function LowerChar(c: char): char {
    if 'A' <= c <= 'Z' then (c as int + 32) as char else c
  }

  /** The result has no upper-case ASCII letter; each upper-case letter of the
      input becomes its lower-case letter, and every other character is kept. */
  function Lower(s: string): (r: string)
    ensures |r| == |s|
    ensures forall i :: 0 <= i < |r| ==> !('A' <= r[i] <= 'Z')
    ensures forall i :: 0 <= i < |s| && 'A' <= s[i] <= 'Z' ==> r[i] as int == s[i] as int + 32
    ensures forall i :: 0 <= i < |s| && !('A' <= s[i] <= 'Z') ==> r[i] == s[i]
  {
    seq(|s|, i requires 0 <= i < |s| => LowerChar(s[i]))
  }

  predicate EndsWith(s: string, suffix: string) {
    |suffix| <= |s| && s[|s| - |suffix|..] == suffix
  }

  /** The name ends, case-insensitively, in `.jpg`, `.jpeg` or `.png`. */
  predicate HasImageExtension(name: string) {
    var l := Lower(name);
    EndsWith(l, ".jpg") || EndsWith(l, ".jpeg") || EndsWith(l, ".png")
  }

  /** Lower-casing a name first changes nothing about whether it has an image extension. */
  lemma ExtensionIgnoresCase(name: string)
    ensures HasImageExtension(Lower(name)) == HasImageExtension(name)
  {
    var l := Lower(name);
    assert Lower(l) == l by {
      forall i | 0 <= i < |l| ensures Lower(l)[i] == l[i] { }
    }
  }

  /** The entry becomes an element: a regular file with an image extension that decodes. */
  predicate Accepted(e: Entry) {
    e.isFile && HasImageExtension(e.name) && e.read.Decoded?
  }

  /** The listing positions of the accepted entries, in listing order. */
  function AcceptedPositions(listing: seq<Entry>): (r: seq<nat>)
    ensures StrictlyIncreasing(r)
    ensures AllBelow(r, |listing|)
  {
    if |listing| == 0 then []
    else
      var n := |listing| - 1;
      AcceptedPositions(listing[..n]) + (if Accepted(listing[n]) then [n] else [])
  }

  lemma {:induction false} AcceptedPositionsMembers(listing: seq<Entry>, p: int)
    ensures p in AcceptedPositions(listing) <==> 0 <= p < |listing| && Accepted(listing[p])
  {
    if |listing| > 0 {
      var n := |listing| - 1;
      AcceptedPositionsMembers(listing[..n], p);
    }
  }

  /** The record that an accepted entry at listing position `p` becomes. */
  function ElementFor(e: Entry, p: nat): Record
    requires e.read.Decoded?
  {
    Initial(e.read.img, p + 1, e.name, e.read.img.width, e.read.img.height)
  }

  /** The records built from `listing`: one per accepted entry, in listing order,
      each numbered by its listing position + 1 and sized by its decoded image. */
  predicate BuiltFrom(listing: seq<Entry>, rs: seq<Record>) {
    var pos := AcceptedPositions(listing);
    |rs| == |pos| &&
    forall k :: 0 <= k < |rs| ==> Accepted(listing[pos[k]]) && rs[k] == ElementFor(listing[pos[k]], pos[k])
  }

  lemma BuiltFromStep(listing: seq<Entry>, n: nat, rs: seq<Record>)
    requires n < |listing|
    requires BuiltFrom(listing[..n], rs)
    ensures Accepted(listing[n]) ==> BuiltFrom(listing[..n + 1], rs + [ElementFor(listing[n], n)])
    ensures !Accepted(listing[n]) ==> BuiltFrom(listing[..n + 1], rs)
  {
    assert listing[..n + 1][..n] == listing[..n];
  }

  /** The image ids of built records lie in 1..|listing| and strictly increase. */
  lemma BuiltFromIds(listing: seq<Entry>, rs: seq<Record>)
    requires BuiltFrom(listing, rs)
    ensures forall k :: 0 <= k < |rs| ==> 1 <= rs[k].imageId <= |listing|
    ensures forall a, b :: 0 <= a < b < |rs| ==> rs[a].imageId < rs[b].imageId
  {
    var pos := AcceptedPositions(listing);
    forall k | 0 <= k < |rs|
      ensures rs[k].imageId == pos[k] + 1
    {
    }
  }

  /** One turn of the loop of `process`: the entry at `num` is appended as a new
      element when it is accepted, and skipped otherwise. */
  method Ingest(listing: seq<Entry>, num: nat, all: seq<Element>) returns (next: seq<Element>)
    requires num < |listing|
    requires BuiltFrom(listing[..num], Records(all)) && Distinct(all)
    ensures BuiltFrom(listing[..num + 1], Records(next)) && Distinct(next)
    ensures |all| <= |next| <= |all| + 1
    ensures forall k :: 0 <= k < |all| ==> next[k] == all[k]
    ensures forall k :: |all| <= k < |next| ==> fresh(next[k])
  {
    var entry := listing[num];
    BuiltFromStep(listing, num, Records(all));
    next := all;
    if entry.isFile && HasImageExtension(entry.name) {
      match entry.read
      case Decoded(img) =>
        var element := new Element(img, num + 1, entry.name, img.width, img.height);
        assert Records(all + [element]) == Records(all) + [ElementFor(entry, num)];
        next := all + [element];
      case NotAnImage =>
      case ReadRaises =>
        // the exception is caught and reported; later files are still read
    }
  }

  class DataGen {
    var folderPath: string

    constructor (folderPath: string)
      ensures this.folderPath == folderPath
    {
      this.folderPath := folderPath;
    }

    /** `dirs` maps each existing directory to its listing. */
    method Process(dirs: map<string, seq<Entry>>) returns (r: Option<seq<Element>>)
      ensures r.None? <==> folderPath !in dirs
      ensures r.Some? ==> BuiltFrom(dirs[folderPath], Records(r.value))
      ensures r.Some? ==> Distinct(r.value) && forall k :: 0 <= k < |r.value| ==> fresh(r.value[k])
      ensures r.Some? ==> forall k :: 0 <= k < |r.value| ==> 1 <= r.value[k].imageId <= |dirs[folderPath]|
      ensures r.Some? ==> forall a, b :: 0 <= a < b < |r.value| ==> r.value[a].imageId < r.value[b].imageId
    {
      if folderPath !in dirs {
        // the folder does not exist: a message is printed and nothing is returned
        return None;
      }
      var listing := dirs[folderPath];
      var all: seq<Element> := [];
      var num := 0;
      while num < |listing|
        invariant 0 <= num <= |listing|
        invariant BuiltFrom(listing[..num], Records(all)) && Distinct(all)
        invariant forall k :: 0 <= k < |all| ==> fresh(all[k])
      {
        all := Ingest(listing, num, all);
        num := num + 1;
      }
      assert listing[..num] == listing;
      ghost var rs := Records(all);
      BuiltFromIds(listing, rs);
      return Some(all);
    }
  }
}
