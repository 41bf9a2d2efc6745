/** kidstunes/config.py: the loaded YAML document, the dotted-key lookup
    `Config.get`, and the properties built on it. Reading the file is not
    modelled; a `Config` is built from the document `yaml.safe_load`
    returned. */
module Configuration {
  import opened Wrappers

  /** A YAML value as `yaml.safe_load` returns it (floats and non-string
      mapping keys are not modelled). */
  datatype Yaml =
    | Null
    | Bool(b: bool)
    | Int(i: int)
    | Str(s: string)
    | List(items: seq<Yaml>)
    | Dict(entries: map<string, Yaml>)

  /** Python truthiness of a YAML value. */
  predicate Truthy(y: Yaml) {
    match y
    case Null => false
    case Bool(b) => b
    case Int(i) => i != 0
    case Str(s) => s != ""
    case List(items) => items != []
    case Dict(entries) => entries != map[]
  }

  /** Python's `key.split(".")`: the segments between dots, empty ones
      included; a key without a dot is a single segment. */
  function Split(key: string): (parts: seq<string>)
    ensures |parts| >= 1
    ensures forall i :: 0 <= i < |parts| ==> '.' !in parts[i]
    decreases |key|
  {
    if key == [] then [""]
    else
      var rest := Split(key[1..]);
      if key[0] == '.' then [""] + rest else [[key[0]] + rest[0]] + rest[1..]
  }

  /** Python's `".".join(parts)`. */
  function JoinDots(parts: seq<string>): string
    requires |parts| >= 1
  {
    if |parts| == 1 then parts[0] else parts[0] + "." + JoinDots(parts[1..])
  }

  lemma {:induction false} SplitNoDot(s: string)
    requires '.' !in s
    ensures Split(s) == [s]
  {
    if s != [] {
      SplitNoDot(s[1..]);
      assert [s[0]] + s[1..] == s;
    }
  }

  lemma {:induction false} SplitDot(a: string, b: string)
    requires '.' !in a
    ensures Split(a + "." + b) == [a] + Split(b)
  {
    if a == [] {
      assert a + "." + b == ['.'] + b;
      assert (['.'] + b)[1..] == b;
    } else {
      assert (a + "." + b)[1..] == a[1..] + "." + b;
      SplitDot(a[1..], b);
      assert [a[0]] + a[1..] == a;
    }
  }

  /** Joining the segments gives the key back. */
  lemma {:induction false} JoinSplit(key: string)
    ensures JoinDots(Split(key)) == key
    decreases |key|
  {
    if key != [] {
      JoinSplit(key[1..]);
      var rest := Split(key[1..]);
      if key[0] != '.' && |rest| > 1 {
        assert JoinDots(rest) == rest[0] + "." + JoinDots(rest[1..]);
        assert [[key[0]] + rest[0]] + rest[1..] == [[key[0]] + rest[0]] + rest[1..];
        assert JoinDots([[key[0]] + rest[0]] + rest[1..]) == [key[0]] + rest[0] + "." + JoinDots(rest[1..]);
      }
      assert key == [key[0]] + key[1..];
    }
  }

  /** Splitting a join of dot-free segments gives the segments back, so a
      dotted key names exactly one path of segments. */
  lemma {:induction false} SplitJoin(parts: seq<string>)
    requires |parts| >= 1
    requires forall i :: 0 <= i < |parts| ==> '.' !in parts[i]
    ensures Split(JoinDots(parts)) == parts
  {
    if |parts| == 1 {
      SplitNoDot(parts[0]);
    } else {
      SplitJoin(parts[1..]);
      SplitDot(parts[0], JoinDots(parts[1..]));
      assert [parts[0]] + parts[1..] == parts;
    }
  }

  /** The value found by walking `keys` down nested mappings, or `None` as
      soon as a segment is absent or the value reached is not a mapping. */
  function Resolve(value: Yaml, keys: seq<string>): Option<Yaml>
  {
    if keys == [] then Some(value)
    else if value.Dict? && keys[0] in value.entries then Resolve(value.entries[keys[0]], keys[1..])
    else None
  }

  /** Walking `a + b` is walking `a`, then `b` from where `a` ended: the
      segments are taken one at a time, left to right. */
  lemma {:induction false} ResolveAppend(value: Yaml, a: seq<string>, b: seq<string>)
    ensures Resolve(value, a + b) == match Resolve(value, a)
                                     case Some(w) => Resolve(w, b)
                                     case None => None
  {
    if a != [] {
      assert (a + b)[1..] == a[1..] + b;
      if value.Dict? && a[0] in value.entries {
        ResolveAppend(value.entries[a[0]], a[1..], b);
      }
    } else {
      assert a + b == b;
    }
  }

  /** If the walk reaches a value at which the next segment is absent (or
      which is not a mapping), the whole walk fails. */
  lemma ResolveStops(value: Yaml, keys: seq<string>, j: nat, w: Yaml)
    requires j < |keys|
    requires Resolve(value, keys[..j]) == Some(w)
    requires !(w.Dict? && keys[j] in w.entries)
    ensures Resolve(value, keys) == None
  {
    assert keys == keys[..j] + keys[j..];
    ResolveAppend(value, keys[..j], keys[j..]);
  }

  datatype Config = Config(data: Yaml) {

    /** What `get(key, default)` returns: the value at the dotted path when
        every segment is present (a present `None` included), else
        `default`. */
    function Value(key: string, default: Yaml): Yaml {
      Resolve(data, Split(key)).GetOr(default)
    }

    /** `Config.get`: one mapping step per dot-separated segment. */
    method Get(key: string, default: Yaml := Null) returns (v: Yaml)
      ensures Resolve(data, Split(key)).Some? ==> v == Resolve(data, Split(key)).value
      ensures Resolve(data, Split(key)).None? ==> v == default
    {
      var keys := Split(key);
      v := data;
      var i := 0;
      while i < |keys|
        invariant 0 <= i <= |keys|
        invariant Resolve(data, keys) == Resolve(v, keys[i..])
      {
        var k := keys[i];
        if v.Dict? && k in v.entries {
          assert keys[i..][1..] == keys[i + 1..];
          v := v.entries[k];
        } else {
          return default;
        }
        i := i + 1;
      }
    }

    function DiscordToken(): Yaml { Value("discord.token", Null) }
    function RequestChannelId(): Yaml { Value("discord.request_channel_id", Null) }
    function ApprovalChannelId(): Yaml { Value("discord.approval_channel_id", Null) }
    function AdminRoleId(): Yaml { Value("discord.admin_role_id", Null) }
    function OutputDir(): Yaml { Value("paths.output_dir", Null) }
    function DatabasePath(): Yaml { Value("paths.database", Null) }
    function TempDir(): Yaml { Value("paths.temp_dir", Null) }
    function AudioFormat(): Yaml { Value("ytdlp.audio_format", Null) }
    function AudioQuality(): Yaml { Value("ytdlp.audio_quality", Null) }
    function SearchPrefix(): Yaml { Value("ytdlp.search_prefix", Null) }
    function XaiApiKey(): Yaml { Value("xai.api_key", Null) }
    function XaiModel(): Yaml { Value("xai.model", Null) }
    function BeetsEnabled(): Yaml { Value("beets.enabled", Bool(false)) }
    function BeetsLibraryPath(): Yaml { Value("beets.library_path", Str("/tmp/beets_library.db")) }
    function BeetsMusicDirectory(): Yaml { Value("beets.music_directory", OutputDir()) }
    function BeetsImportConfig(): Yaml { Value("beets.import_config", Dict(map[])) }

    /** The value two levels down, or `fallback` when either level is
        missing. */
    function At(section: string, name: string, fallback: Yaml): Yaml {
      Resolve(data, [section, name]).GetOr(fallback)
    }
  }

  /** A key without a dot is one top-level lookup. */
  lemma TopLevelKey(c: Config, key: string, default: Yaml)
    requires '.' !in key
    ensures c.Value(key, default) ==
            if c.data.Dict? && key in c.data.entries then c.data.entries[key] else default
  {
    SplitNoDot(key);
    assert [key][1..] == [];
    if c.data.Dict? && key in c.data.entries {
      assert Resolve(c.data, [key]) == Resolve(c.data.entries[key], []);
    }
  }

  /** A key `section.name` of two dot-free segments reads two levels down. */
  lemma SectionKey(c: Config, section: string, name: string, fallback: Yaml)
    requires '.' !in section && '.' !in name
    ensures c.Value(section + "." + name, fallback) == c.At(section, name, fallback)
  {
    SplitDot(section, name);
    SplitNoDot(name);
  }

  /** Presence, not truthiness, decides: a key present with a null value
      gives that null, whatever the default. */
  lemma PresentNullKept(c: Config, section: string, name: string, default: Yaml)
    requires '.' !in section && '.' !in name
    requires c.data.Dict? && section in c.data.entries
    requires c.data.entries[section].Dict? && name in c.data.entries[section].entries
    requires c.data.entries[section].entries[name] == Null
    ensures c.Value(section + "." + name, default) == Null
  {
    SectionKey(c, section, name, default);
    var inner := c.data.entries[section];
    assert [section, name][1..] == [name] && [name][1..] == [];
    assert Resolve(inner, [name]) == Resolve(inner.entries[name], []);
    assert Resolve(c.data, [section, name]) == Resolve(inner, [name]);
  }

  /** A section that is present but not a mapping gives the default. */
  lemma NonDictSection(c: Config, section: string, name: string, default: Yaml)
    requires '.' !in section && '.' !in name
    requires c.data.Dict? && section in c.data.entries && !c.data.entries[section].Dict?
    ensures c.Value(section + "." + name, default) == default
  {
    SectionKey(c, section, name, default);
    assert [section, name][1..] == [name];
    assert Resolve(c.data, [section, name]) == Resolve(c.data.entries[section], [name]) == None;
  }

  // One lemma per property: `Config.<name>` reads `section.key`, two levels down.
  lemma DiscordTokenKey(c: Config)
    ensures c.DiscordToken() == c.At("discord", "token", Null)
  {
    assert "discord.token" == "discord" + "." + "token";
    SectionKey(c, "discord", "token", Null);
  }

  lemma RequestChannelIdKey(c: Config)
    ensures c.RequestChannelId() == c.At("discord", "request_channel_id", Null)
  {
    assert "discord.request_channel_id" == "discord" + "." + "request_channel_id";
    SectionKey(c, "discord", "request_channel_id", Null);
  }

  lemma ApprovalChannelIdKey(c: Config)
    ensures c.ApprovalChannelId() == c.At("discord", "approval_channel_id", Null)
  {
    assert "discord.approval_channel_id" == "discord" + "." + "approval_channel_id";
    SectionKey(c, "discord", "approval_channel_id", Null);
  }

  lemma AdminRoleIdKey(c: Config)
    ensures c.AdminRoleId() == c.At("discord", "admin_role_id", Null)
  {
    assert "discord.admin_role_id" == "discord" + "." + "admin_role_id";
    SectionKey(c, "discord", "admin_role_id", Null);
  }

  lemma OutputDirKey(c: Config)
    ensures c.OutputDir() == c.At("paths", "output_dir", Null)
  {
    assert "paths.output_dir" == "paths" + "." + "output_dir";
    SectionKey(c, "paths", "output_dir", Null);
  }

  lemma DatabasePathKey(c: Config)
    ensures c.DatabasePath() == c.At("paths", "database", Null)
  {
    assert "paths.database" == "paths" + "." + "database";
    SectionKey(c, "paths", "database", Null);
  }

  lemma TempDirKey(c: Config)
    ensures c.TempDir() == c.At("paths", "temp_dir", Null)
  {
    assert "paths.temp_dir" == "paths" + "." + "temp_dir";
    SectionKey(c, "paths", "temp_dir", Null);
  }

  lemma AudioFormatKey(c: Config)
    ensures c.AudioFormat() == c.At("ytdlp", "audio_format", Null)
  {
    assert "ytdlp.audio_format" == "ytdlp" + "." + "audio_format";
    SectionKey(c, "ytdlp", "audio_format", Null);
  }

  lemma AudioQualityKey(c: Config)
    ensures c.AudioQuality() == c.At("ytdlp", "audio_quality", Null)
  {
    assert "ytdlp.audio_quality" == "ytdlp" + "." + "audio_quality";
    SectionKey(c, "ytdlp", "audio_quality", Null);
  }

  lemma SearchPrefixKey(c: Config)
    ensures c.SearchPrefix() == c.At("ytdlp", "search_prefix", Null)
  {
    assert "ytdlp.search_prefix" == "ytdlp" + "." + "search_prefix";
    SectionKey(c, "ytdlp", "search_prefix", Null);
  }

  lemma XaiApiKeyKey(c: Config)
    ensures c.XaiApiKey() == c.At("xai", "api_key", Null)
  {
    assert "xai.api_key" == "xai" + "." + "api_key";
    SectionKey(c, "xai", "api_key", Null);
  }

  lemma XaiModelKey(c: Config)
    ensures c.XaiModel() == c.At("xai", "model", Null)
  {
    assert "xai.model" == "xai" + "." + "model";
    SectionKey(c, "xai", "model", Null);
  }

  lemma BeetsEnabledKey(c: Config)
    ensures c.BeetsEnabled() == c.At("beets", "enabled", Bool(false))
  {
    assert "beets.enabled" == "beets" + "." + "enabled";
    SectionKey(c, "beets", "enabled", Bool(false));
  }

  lemma BeetsLibraryPathKey(c: Config)
    ensures c.BeetsLibraryPath() == c.At("beets", "library_path", Str("/tmp/beets_library.db"))
  {
    assert "beets.library_path" == "beets" + "." + "library_path";
    SectionKey(c, "beets", "library_path", Str("/tmp/beets_library.db"));
  }

  lemma MusicDirectoryKey(c: Config, fallback: Yaml)
    ensures c.Value("beets.music_directory", fallback) == c.At("beets", "music_directory", fallback)
  {
    assert "beets.music_directory" == "beets" + "." + "music_directory";
    SectionKey(c, "beets", "music_directory", fallback);
  }

  lemma BeetsMusicDirectoryKey(c: Config)
    ensures c.BeetsMusicDirectory() == c.At("beets", "music_directory", c.OutputDir())
  {
    var out := c.OutputDir();
    MusicDirectoryKey(c, out);
  }

  lemma BeetsImportConfigKey(c: Config)
    ensures c.BeetsImportConfig() == c.At("beets", "import_config", Dict(map[]))
  {
    assert "beets.import_config" == "beets" + "." + "import_config";
    SectionKey(c, "beets", "import_config", Dict(map[]));
  }

  /** With no `beets` section, the four beets settings take their defaults. */
  lemma BeetsDefaults(c: Config)
    requires !(c.data.Dict? && "beets" in c.data.entries)
    ensures c.BeetsEnabled() == Bool(false)
    ensures c.BeetsLibraryPath() == Str("/tmp/beets_library.db")
    ensures c.BeetsMusicDirectory() == c.OutputDir()
    ensures c.BeetsImportConfig() == Dict(map[])
  {
    BeetsEnabledKey(c);
    BeetsLibraryPathKey(c);
    BeetsMusicDirectoryKey(c);
    BeetsImportConfigKey(c);
  }
}
