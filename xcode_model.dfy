/** A decoded Xcode release record (`XcodeReleaseModel`) and its derived identity and labels. */
module Releases {
  import opened Wrappers
  import opened Sorting
  import opened Text

  datatype Version = Version(build: Option<string>, number: Option<string>)
  datatype SimpleDate = SimpleDate(day: int, month: int, year: int)
  datatype Download = Download(architectures: Option<seq<string>>, url: string)
  datatype NoteLink = NoteLink(url: Option<string>)
  datatype Links = Links(download: Option<Download>, notes: Option<NoteLink>)
  datatype SdkItem = SdkItem(build: Option<string>, number: Option<string>)
  datatype Sdks = Sdks(iOS: Option<seq<SdkItem>>, macOS: Option<seq<SdkItem>>, tvOS: Option<seq<SdkItem>>,
                       watchOS: Option<seq<SdkItem>>, visionOS: Option<seq<SdkItem>>)
  datatype Checksums = Checksums(sha1: Option<string>)

  /** The architecture part of a key id: the names sorted and joined with ",". */
  function ArchKey(archs: seq<string>): (key: string)
    ensures forall s :: multiset(s) == multiset(archs) && SortedBy(s, LexLe) ==> key == Join(s, ",")
  {
    LexLeTotalOrder();
    SortBySorted(archs, LexLe);
    forall s | multiset(s) == multiset(archs) && SortedBy(s, LexLe) ensures s == SortBy(archs, LexLe) {
      SortedUnique(s, SortBy(archs, LexLe), LexLe);
    }
    Join(SortBy(archs, LexLe), ",")
  }

  /** The date part of a key id: "year-month-day", or "nodate". */
  function DateKey(date: Option<SimpleDate>): (key: string)
    ensures date.None? ==> key == "nodate"
    ensures date.Some? ==> key == IntToString(date.value.year) + "-" + IntToString(date.value.month) + "-"
                                  + IntToString(date.value.day)
  {
    if date.Some? then IntToString(date.value.year) + "-" + IntToString(date.value.month) + "-" + IntToString(date.value.day)
    else "nodate"
  }

  /** `x ?? "-"` for the parts of a key id. */
  function OrDash(x: Option<string>): (s: string)
    ensures x.Some? ==> s == x.value
    ensures x.None? ==> s == "-"
  {
    if x.Some? then x.value else "-"
  }

  datatype XcodeRelease = XcodeRelease(
    name: Option<string>,
    version: Option<Version>,
    date: Option<SimpleDate>,
    links: Option<Links>,
    minimumOS: Option<string>,  // the feed's `requires` field
    sdks: Option<Sdks>,
    checksums: Option<Checksums>)
  {
    /** The release's SHA-1 checksum when it has a non-empty one. */
    predicate HasChecksum() {
      checksums.Some? && checksums.value.sha1.Some? && checksums.value.sha1.value != ""
    }

    function DownloadInfo(): Option<Download> {
      if links.Some? then links.value.download else None
    }

    /** `architectures`: the download's architectures, or none when links or download are missing. */
    function Architectures(): (archs: seq<string>)
      ensures DownloadInfo().None? || DownloadInfo().value.architectures.None? ==> archs == []
      ensures DownloadInfo().Some? && DownloadInfo().value.architectures.Some? ==> archs == DownloadInfo().value.architectures.value
    {
      if DownloadInfo().Some? && DownloadInfo().value.architectures.Some? then DownloadInfo().value.architectures.value else []
    }

    /** The fields a key id is made of, in order: url, build, number, name, date, architectures; "-" when missing. */
    function KeyFields(): (fields: seq<string>)
      ensures |fields| == 6
      ensures fields[0] == if DownloadInfo().Some? then DownloadInfo().value.url else "-"
      ensures fields[1] == if version.Some? && version.value.build.Some? then version.value.build.value else "-"
      ensures fields[2] == if version.Some? && version.value.number.Some? then version.value.number.value else "-"
      ensures fields[3] == if name.Some? then name.value else "-"
      ensures fields[4] == DateKey(date)
      ensures fields[5] == ArchKey(Architectures())
    {
      [ if DownloadInfo().Some? then DownloadInfo().value.url else "-",
        if version.Some? then OrDash(version.value.build) else "-",
        if version.Some? then OrDash(version.value.number) else "-",
        OrDash(name),
        DateKey(date),
        ArchKey(Architectures()) ]
    }

    /** `id`: the lowercased checksum when there is one, else a key built from the other fields. */
    function Id(): (id: string)
      ensures HasChecksum() ==> id == "sha1:" + Lowercased(checksums.value.sha1.value)
      ensures !HasChecksum() ==> id == "key:" + Join(KeyFields(), "|")
    {
      if HasChecksum() then "sha1:" + Lowercased(checksums.value.sha1.value)
      else "key:" + Join(KeyFields(), "|")
    }

    /** `displayVersion`: "Xcode <number> (<build>)", with "—" for a missing number. */
    function DisplayVersion(): (s: string)
      ensures var v := if version.Some? && version.value.number.Some? then version.value.number.value else "—";
        && (version.Some? && version.value.build.Some? ==> s == "Xcode " + v + " (" + version.value.build.value + ")")
        && (!(version.Some? && version.value.build.Some?) ==> s == "Xcode " + v)
    {
      var v := if version.Some? && version.value.number.Some? then version.value.number.value else "—";
      if version.Some? && version.value.build.Some? then "Xcode " + v + " (" + version.value.build.value + ")"
      else "Xcode " + v
    }
  }

  /** Sorting before joining makes the architecture key independent of the order the feed lists them in. */
  lemma ArchKeyOrderIndependent(a: seq<string>, b: seq<string>)
    requires multiset(a) == multiset(b)
    ensures ArchKey(a) == ArchKey(b)
  {
    LexLeTotalOrder();
    SortBySorted(a, LexLe);
    SortBySorted(b, LexLe);
    SortedUnique(SortBy(a, LexLe), SortBy(b, LexLe), LexLe);
  }

  /** A release whose download lists the same architectures in another order has the same id. */
  lemma IdIgnoresArchitectureOrder(r: XcodeRelease, archs: seq<string>)
    requires r.DownloadInfo().Some? && r.DownloadInfo().value.architectures.Some?
    requires multiset(archs) == multiset(r.DownloadInfo().value.architectures.value)
    ensures var d := r.DownloadInfo().value;
      r.(links := Some(r.links.value.(download := Some(d.(architectures := Some(archs)))))).Id() == r.Id()
  {
    ArchKeyOrderIndependent(archs, r.DownloadInfo().value.architectures.value);
  }

  /** A checksum id and a key id never coincide: they start with different prefixes. */
  lemma IdKindsDisjoint(a: XcodeRelease, b: XcodeRelease)
    requires a.HasChecksum() && !b.HasChecksum()
    ensures a.Id() != b.Id()
  {
    assert a.Id()[0] == 's' && b.Id()[0] == 'k';
  }

  /** Checksum ids ignore letter case: checksums differing only in case give the same release id. */
  lemma ChecksumIdIgnoresCase(a: XcodeRelease, b: XcodeRelease)
    requires a.HasChecksum() && b.HasChecksum()
    requires Lowercased(a.checksums.value.sha1.value) == Lowercased(b.checksums.value.sha1.value)
    ensures a.Id() == b.Id()
  {
  }
}
