/** The strings `downloadFromChannel` builds before it spawns yt-dlp
    (src/main/download.ts:61-87): the channel URL, the output directory and the fixed
    argument vector with the resolution spliced into the format selector. */
module Arguments {
  import opened Wrappers
  import opened Chars
  import opened Text

  /** The `type` parameter: 'all' | 'videos' | 'shorts' | 'playlists'. */
  datatype ContentType = All | Videos | Shorts | Playlists

  function TypeName(t: ContentType): string {
    match t
    case All => "all"
    case Videos => "videos"
    case Shorts => "shorts"
    case Playlists => "playlists"
  }

  /** `suffixType`: empty for 'all', the type's own name otherwise. */
  function SuffixType(t: ContentType): (r: string)
    ensures r == [] <==> t == All
    ensures r != [] ==> r == TypeName(t)
    ensures '/' !in r
  {
    if t == All then "" else TypeName(t)
  }

  const CHANNEL_PREFIX := "https://www.youtube.com/@"

  /** `channelUrl`. The content tab is the URL's last segment; for 'all' it is empty and
      the URL ends in '/'. */
  function ChannelUrl(channel: string, t: ContentType): (r: string)
    ensures |CHANNEL_PREFIX| <= |r| && r[..|CHANNEL_PREFIX|] == CHANNEL_PREFIX
    ensures Basename(r) == SuffixType(t)
  {
    BasenameAfterSlash(CHANNEL_PREFIX + channel, SuffixType(t));
    CHANNEL_PREFIX + channel + "/" + SuffixType(t)
  }

  /** Different channels (without '/') or different content types never share a URL. */
  lemma ChannelUrlInjective(c1: string, t1: ContentType, c2: string, t2: ContentType)
    requires '/' !in c1 && '/' !in c2
    requires ChannelUrl(c1, t1) == ChannelUrl(c2, t2)
    ensures c1 == c2 && t1 == t2
  {
    var s1, s2 := SuffixType(t1), SuffixType(t2);
    var rest1, rest2 := c1 + "/" + s1, c2 + "/" + s2;
    var u := ChannelUrl(c1, t1);
    assert u == CHANNEL_PREFIX + rest1 && u == CHANNEL_PREFIX + rest2;
    assert u[|CHANNEL_PREFIX|..] == rest1 && u[|CHANNEL_PREFIX|..] == rest2;
    SplitAtSeparator(c1, s1, c2, s2, '/');
    SuffixTypeInjective(t1, t2);
  }

  lemma SuffixTypeInjective(t1: ContentType, t2: ContentType)
    requires SuffixType(t1) == SuffixType(t2)
    ensures t1 == t2
  {
  }

  /** `outputDir`: `path.join(savePath, '@' + channel)`, with '/' as the separator. The
      directory is named after the channel and sits directly inside `savePath`. */
  function OutputDir(savePath: string, channel: string): (r: string)
    ensures |savePath| < |r| && r[..|savePath|] == savePath && r[|savePath|] == '/'
    ensures '/' !in channel ==> Basename(r) == "@" + channel
  {
    var parts := [savePath, "@" + channel];
    assert parts[1..] == ["@" + channel];
    assert Join(parts, '/') == savePath + "/" + ("@" + channel);
    if '/' !in channel then
      assert '/' !in "@" + channel;
      BasenameAfterSlash(savePath, "@" + channel);
      Join(parts, '/')
    else
      Join(parts, '/')
  }

  const FILE_PATTERN := "/%(autonumber)d-%(title)s.%(ext)s"

  /** The `-o` template: files are numbered and named by title inside `outputDir`. */
  function OutputTemplate(outputDir: string): string {
    outputDir + FILE_PATTERN
  }

  /** The rest of the first tier: an mp4 video in avc1 merged with m4a audio in mp4a. */
  const VIDEO_FILTERS := "][ext=mp4]" + "[vcodec^=avc1]" + "+ba[ext=m4a]" + "[acodec^=mp4a]"

  /** The three tiers of the `--format` selector, best first. */
  function FormatTiers(resolution: nat): seq<string> {
    var r := DecimalString(resolution);
    ["bv[height=" + r + VIDEO_FILTERS,
     "best[height=" + r + "]",
     "best"]
  }

  /** The `--format` selector: the tiers, '/'-separated. */
  function FormatSelector(resolution: nat): string {
    var r := DecimalString(resolution);
    "bv[height=" + r + VIDEO_FILTERS + "/best[height=" + r + "]/best"
  }

  /** The selector is exactly the tiers joined by '/'. */
  lemma TiersJoin(resolution: nat)
    ensures Join(FormatTiers(resolution), '/') == FormatSelector(resolution)
  {
    var r := DecimalString(resolution);
    var tiers := FormatTiers(resolution);
    assert tiers[1..] == ["best[height=" + r + "]", "best"] && tiers[1..][1..] == ["best"];
    assert Join(tiers[1..], '/') == ("best[height=" + r + "]") + "/" + "best";
  }

  /** yt-dlp reads the selector as '/'-separated fallbacks: an avc1 mp4 video of the
      requested height with m4a audio, else the best format of that height, else the best. */
  lemma {:induction false} FormatSelectorTiers(resolution: nat)
    ensures Split(FormatSelector(resolution), '/') == FormatTiers(resolution)
  {
    TiersSlashFree(resolution);
    TiersJoin(resolution);
    SplitJoin(FormatTiers(resolution), '/');
  }

  lemma TiersSlashFree(resolution: nat)
    ensures forall k :: 0 <= k < |FormatTiers(resolution)| ==> '/' !in FormatTiers(resolution)[k]
  {
    var r := DecimalString(resolution);
    assert '/' !in r by {
      forall m | 0 <= m < |r| ensures r[m] != '/' {
        assert IsDigit(r[m]);
      }
    }
    assert '/' !in "bv[height=" + r + VIDEO_FILTERS by {
      assert '/' !in "bv[height=";
      assert '/' !in "][ext=mp4]" && '/' !in "[vcodec^=avc1]";
      assert '/' !in "+ba[ext=m4a]" && '/' !in "[acodec^=mp4a]";
    }
    assert '/' !in "best[height=" + r + "]" by {
      assert '/' !in "best[height=" && '/' !in "]";
    }
  }

  /** `ytDlpArgs`. */
  function YtDlpArgs(url: string, outputDir: string, resolution: nat): (r: seq<string>)
    ensures |r| == 14 && r[0] == url
  {
    [url,
     "-o", OutputTemplate(outputDir),
     "--format", FormatSelector(resolution),
     "--merge-output-format", "mp4",
     "--write-thumbnail",
     "--convert-thumbnails", "jpg",
     "--embed-thumbnail",
     "--yes-playlist",
     "--no-warnings",
     "--progress"]
  }

  /** The value yt-dlp takes for an option: the element after its first occurrence. */
  function OptionValue(args: seq<string>, flag: string): Option<string> {
    if |args| < 2 then None
    else if args[0] == flag then Some(args[1])
    else OptionValue(args[1..], flag)
  }

  /** The switches of the vector that take no value. */
  const SWITCHES := ["--write-thumbnail", "--embed-thumbnail", "--yes-playlist", "--no-warnings", "--progress"]

  /** An option whose first occurrence is at i has the element after it as its value. */
  lemma {:induction false} OptionValueAt(args: seq<string>, i: nat, flag: string)
    requires i + 1 < |args| && args[i] == flag
    requires forall j :: 0 <= j < i ==> args[j] != flag
    ensures OptionValue(args, flag) == Some(args[i + 1])
    decreases i
  {
    if i > 0 {
      OptionValueAt(args[1..], i - 1, flag);
    }
  }

  /** Read as yt-dlp reads it, the vector built for a channel asks for the numbered output
      template, the three-tier format selector, mp4 merging and jpg thumbnails, and sets
      every switch. */
  lemma ArgsReadBack(channel: string, t: ContentType, savePath: string, resolution: nat)
    ensures var args := YtDlpArgs(ChannelUrl(channel, t), OutputDir(savePath, channel), resolution);
      && OptionValue(args, "-o") == Some(OutputTemplate(OutputDir(savePath, channel)))
      && OptionValue(args, "--format") == Some(FormatSelector(resolution))
      && OptionValue(args, "--merge-output-format") == Some("mp4")
      && OptionValue(args, "--convert-thumbnails") == Some("jpg")
      && (forall k :: 0 <= k < |SWITCHES| ==> SWITCHES[k] in args)
  {
    var url := ChannelUrl(channel, t);
    assert url[0] == 'h';
    ArgsValues(url, OutputDir(savePath, channel), resolution);
    ArgsFixedValues(url, OutputDir(savePath, channel), resolution);
    ArgsSwitches(url, OutputDir(savePath, channel), resolution);
  }

  lemma ArgsValues(url: string, outputDir: string, resolution: nat)
    requires |url| > 0 && url[0] == 'h'
    ensures var args := YtDlpArgs(url, outputDir, resolution);
      && OptionValue(args, "-o") == Some(OutputTemplate(outputDir))
      && OptionValue(args, "--format") == Some(FormatSelector(resolution))
  {
    var args := YtDlpArgs(url, outputDir, resolution);
    assert |OutputTemplate(outputDir)| > 30;
    OptionValueAt(args, 1, "-o");
    OptionValueAt(args, 3, "--format");
  }

  lemma ArgsFixedValues(url: string, outputDir: string, resolution: nat)
    requires |url| > 0 && url[0] == 'h'
    ensures var args := YtDlpArgs(url, outputDir, resolution);
      && OptionValue(args, "--merge-output-format") == Some("mp4")
      && OptionValue(args, "--convert-thumbnails") == Some("jpg")
  {
    var args := YtDlpArgs(url, outputDir, resolution);
    assert |OutputTemplate(outputDir)| > 30 && |FormatSelector(resolution)| > 30;
    OptionValueAt(args, 5, "--merge-output-format");
    OptionValueAt(args, 8, "--convert-thumbnails");
  }

  lemma ArgsSwitches(url: string, outputDir: string, resolution: nat)
    ensures forall k :: 0 <= k < |SWITCHES| ==> SWITCHES[k] in YtDlpArgs(url, outputDir, resolution)
  {
    var args := YtDlpArgs(url, outputDir, resolution);
    assert args[7] == SWITCHES[0] && args[10] == SWITCHES[1] && args[11] == SWITCHES[2];
    assert args[12] == SWITCHES[3] && args[13] == SWITCHES[4];
  }
}
