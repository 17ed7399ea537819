/** Session naming: the output file name and the ffmpeg argument list that
    one recording session derives from its stream and the wall-clock
    weekday and hour (index.js:61-100). */
module Naming {
  import opened Strings

  /** One configured stream: a human-readable name and a network locator. */
  datatype Stream = Stream(name: string, url: string)

  const Mp3Marker: string := ".mp3"
  const HlsSuffix: string := ".m3u8"

  /** The container extension: `.mp3` when the URL mentions `.mp3` anywhere
      in it, `.aac` otherwise; either way a dot and three letters. */
  function Extension(url: string): (r: string)
    ensures r == ".mp3" || r == ".aac"
    ensures |r| == 4 && r[0] == '.'
  {
    if Contains(url, Mp3Marker) then ".mp3" else ".aac"
  }

  /** `{name with spaces as dashes}-{weekday lower-cased}-{hour}h{ext}`.
      The name is neither trimmed nor lower-cased: the normalised name the
      source computes is never used. */
  function FileName(stream: Stream, weekday: string, hour: string): (r: string)
    ensures |r| == |stream.name| + |weekday| + |hour| + 7
    ensures r[|r| - 4..] == Extension(stream.url)
  {
    Joined(ReplaceSpaces(stream.name), Lower(weekday), hour, Extension(stream.url));
    ReplaceSpaces(stream.name) + "-" + Lower(weekday) + "-" + hour + "h" + Extension(stream.url)
  }

  /** The argument list for an HLS playlist: read the URL, encode AAC in an
      ADTS container, write to standard output. */
  function HlsArgs(url: string): seq<string>
  {
    ["-i", url, "-c:a", "aac", "-f", "adts", "-"]
  }

  /** The argument list ffmpeg is spawned with: the HLS list for a URL that
      ends with `.m3u8`, and no arguments at all for any other URL. */
  function FfmpegArgs(url: string): (r: seq<string>)
    ensures r == [] || r == HlsArgs(url)
    ensures r != [] ==> EndsWith(url, HlsSuffix) && |r| == 7 && r[1] == url && r[|r| - 1] == "-"
  {
    if EndsWith(url, HlsSuffix) then HlsArgs(url) else []
  }

  /** The extension is `.mp3` exactly when `.mp3` occurs somewhere in the
      URL, and `.aac` exactly when it does not. */
  lemma ExtensionRule(url: string)
    ensures Extension(url) == ".mp3" <==> exists i :: OccursAt(url, Mp3Marker, i)
    ensures Extension(url) == ".aac" <==> !exists i :: OccursAt(url, Mp3Marker, i)
  {
    ContainsIff(url, Mp3Marker);
  }

  /** A URL that ends with `.mp3` always records into an `.mp3` file
      (while ffmpeg is given no arguments for it). */
  lemma Mp3SuffixGivesMp3(url: string)
    requires EndsWith(url, Mp3Marker)
    ensures Extension(url) == ".mp3"
    ensures FfmpegArgs(url) == []
  {
    EndsWithContains(url, Mp3Marker);
    assert url[|url| - 1] == url[|url| - 4..][3] == '3';
  }

  /** The arguments are the HLS list exactly when the URL ends with `.m3u8`
      and otherwise empty; the HLS list names the URL as the only input and
      standard output as the destination. */
  lemma FfmpegArgsRule(url: string)
    ensures FfmpegArgs(url) != [] <==> EndsWith(url, HlsSuffix)
    ensures EndsWith(url, HlsSuffix) ==> FfmpegArgs(url) == ["-i", url, "-c:a", "aac", "-f", "adts", "-"]
    ensures !EndsWith(url, HlsSuffix) ==> FfmpegArgs(url) == []
  {
  }

  /** Where each part of the file name sits: the stream name with spaces
      turned into dashes (same length, so never trimmed), a dash, the
      lower-cased weekday, a dash, the hour, `h`, and the extension. */
  lemma FileNameLayout(stream: Stream, weekday: string, hour: string)
    ensures var f, n, w, h := FileName(stream, weekday, hour), |stream.name|, |weekday|, |hour|;
      && |f| == n + w + h + 7
      && f[..n] == ReplaceSpaces(stream.name)
      && f[n] == '-'
      && f[n + 1..n + 1 + w] == Lower(weekday)
      && f[n + 1 + w] == '-'
      && f[n + 2 + w..n + 2 + w + h] == hour
      && f[n + 2 + w + h] == 'h'
      && f[n + 3 + w + h..] == Extension(stream.url)
  {
    Joined(ReplaceSpaces(stream.name), Lower(weekday), hour, Extension(stream.url));
  }

  /** The same layout for any four parts joined the way the file name joins
      them. */
  lemma Joined(a: string, d: string, h: string, e: string)
    ensures var f := a + "-" + d + "-" + h + "h" + e;
      && |f| == |a| + |d| + |h| + 3 + |e|
      && f[..|a|] == a
      && f[|a|] == '-'
      && f[|a| + 1..|a| + 1 + |d|] == d
      && f[|a| + 1 + |d|] == '-'
      && f[|a| + 2 + |d|..|a| + 2 + |d| + |h|] == h
      && f[|a| + 2 + |d| + |h|] == 'h'
      && f[|a| + 3 + |d| + |h|..] == e
  {
    var f := a + "-" + d + "-" + h + "h" + e;
    var r0 := d + "-" + h + "h" + e;
    assert f == a + ("-" + r0);
    assert r0 == d + ("-" + (h + ("h" + e)));
    assert f[|a| + 1..] == r0;
    assert f[|a| + 1 + |d|..] == "-" + (h + ("h" + e));
    assert f[|a| + 2 + |d|..] == h + ("h" + e);
    assert f[|a| + 2 + |d| + |h|..] == "h" + e;
  }

  /** Rotation moves to a different file: for one stream and weekday, two
      hours give the same file name only when they are the same hour. */
  lemma FileNameHourInjective(stream: Stream, weekday: string, h1: string, h2: string)
    requires FileName(stream, weekday, h1) == FileName(stream, weekday, h2)
    ensures h1 == h2
  {
    FileNameLayout(stream, weekday, h1);
    FileNameLayout(stream, weekday, h2);
  }

  /** Two different streams can share one output file: a space in a name
      and a dash in the same place give the same file name. */
  lemma {:induction false} SpaceAndDashCollide(before: string, after: string, url: string, weekday: string, hour: string)
    ensures FileName(Stream(before + " " + after, url), weekday, hour)
         == FileName(Stream(before + "-" + after, url), weekday, hour)
  {
    var a, b := before + " " + after, before + "-" + after;
    assert |a| == |b|;
    assert forall i :: 0 <= i < |a| ==> ReplaceSpaces(a)[i] == ReplaceSpaces(b)[i] by {
      forall i | 0 <= i < |a| ensures ReplaceSpaces(a)[i] == ReplaceSpaces(b)[i] {
        if i != |before| {
          assert a[i] == b[i];
        }
      }
    }
    assert ReplaceSpaces(a) == ReplaceSpaces(b);
  }
}
