/** The options each backend knows (pkg/backend/mergerfs/mergerfs.go,
    pkg/backend/overlay/overlay.go). None of their names and values can end or escape a field
    of an option string, which is what the policy passes on to the command line and the
    mount. */
module Schemas {
  import opened Policy

  function Of(kind: Kind): OptionSpec {
    OptionSpec(kind, [], 0, 0)
  }

  function OneOf(values: seq<string>): OptionSpec {
    OptionSpec(EnumKind, values, 0, 0)
  }

  // ---- mergerfs ----

  const CACHING: Schema := map[
    "cache.entry" := Of(DurationKind),
    "cache.attr" := Of(DurationKind),
    "cache.negative_entry" := Of(DurationKind),
    "cache.readdir" := Of(BoolKind)]

  const FILES: Schema := map[
    "cache.files" := OneOf(["off", "partial", "full", "auto-full", "libfuse"]),
    "dropcacheonclose" := Of(BoolKind)]

  const SEARCH: Schema := map[
    "func.getattr" := OneOf(["ff", "newest"]),
    "category.search" := OneOf(["ff", "all", "newest"])]

  const CREATE_POLICIES := ["all", "epall", "ff", "epff", "lfs", "eplfs", "lus", "eplus", "mfs", "epmfs"]

  const MORE_CREATE_POLICIES := ["msplfs", "msplus", "mspmfs", "msppfrd", "newest", "pfrd", "eppfrd", "rand", "eprand"]

  const INODE_CALCS := [
    "passthrough", "path-hash", "devino-hash", "hybrid-hash", "path-hash32", "devino-hash32", "hybrid-hash32"]

  const CREATE: Schema := map["category.create" := OneOf(CREATE_POLICIES + MORE_CREATE_POLICIES)]

  const INODES: Schema := map["inodecalc" := OneOf(INODE_CALCS)]

  const LIMITS: Schema := map[
    "threads" := OptionSpec(IntKind, [], -16, 1024),
    "minfreespace" := Of(SizeKind),
    "link-exdev" := OneOf(["passthrough", "rel-symlink"])]

  const FOLLOW_SYMLINKS: Schema := map["follow-symlinks" := OneOf(["never", "directory", "regular", "all"])]

  /** follow-symlinks exists only in the sandbox. */
  function MergerfsSchema(sandbox: bool): Schema {
    CACHING + FILES + SEARCH + (CREATE + INODES + (LIMITS + if sandbox then FOLLOW_SYMLINKS else map[]))
  }

  // ---- overlay ----

  const ON_OFF := ["off", "auto", "null", "on", "require", "nofollow", "follow"]

  const LAYERS: Schema := map[
    "default_permissions" := Of(FlagKind),
    "redirect_dir" := OneOf(["nofollow", "off", "follow"]),
    "index" := OneOf(["off"])]

  const IDENTITY: Schema := map[
    "xino" := OneOf(["off", "auto", "on"]),
    "uuid" := OneOf(["auto", "null", "off", "on"]),
    "verity" := OneOf(["off", "on", "require"])]

  const METADATA: Schema := map[
    "metacopy" := OneOf(["on", "off"]),
    "userxattr" := Of(FlagKind),
    "nfs_export" := OneOf(["on", "off"])]

  const OVERLAY_SCHEMA: Schema := LAYERS + (IDENTITY + METADATA)

  // ---- every word is plain ----

  predicate PlainWord(w: string) {
    forall i | 0 <= i < |w| :: w[i] != ',' && w[i] != '\\' && w[i] != '='
  }

  predicate AllPlain(words: seq<string>) {
    forall w | w in words :: PlainWord(w)
  }

  lemma WordsMakePlain(schema: Schema, words: seq<string>)
    requires AllPlain(words)
    requires forall k | k in schema :: k in words && forall v | v in schema[k].enum :: v in words
    ensures PlainSchema(schema)
  {}

  lemma PlainTogether(a: Schema, b: Schema)
    requires PlainSchema(a) && PlainSchema(b)
    ensures PlainSchema(a + b)
  {}

  const CACHING_WORDS := ["cache.entry", "cache.attr", "cache.negative_entry", "cache.readdir"]
  const FILE_WORDS := ["off", "partial", "full", "auto-full", "libfuse"]
  const FILE_KEYS := ["cache.files", "dropcacheonclose"]
  const SEARCH_WORDS := ["func.getattr", "category.search", "ff", "all", "newest"]
  const LIMIT_WORDS := ["threads", "minfreespace", "link-exdev", "passthrough", "rel-symlink"]
  const FOLLOW_KEYS := ["follow-symlinks"]
  const FOLLOW_WORDS := ["never", "directory", "regular", "all"]

  lemma CachingWordsArePlain()
    ensures AllPlain(CACHING_WORDS)
  {}

  lemma CachingIsPlain()
    ensures PlainSchema(CACHING)
  {
    CachingWordsArePlain();
    WordsMakePlain(CACHING, CACHING_WORDS);
  }

  lemma FileWordsArePlain()
    ensures AllPlain(FILE_WORDS)
  {}

  lemma FileKeysArePlain()
    ensures AllPlain(FILE_KEYS)
  {}

  lemma FilesArePlain()
    ensures PlainSchema(FILES)
  {
    FileWordsArePlain();
    FileKeysArePlain();
    WordsMakePlain(FILES, FILE_KEYS + FILE_WORDS);
  }

  lemma SearchWordsArePlain()
    ensures AllPlain(SEARCH_WORDS)
  {}

  lemma SearchIsPlain()
    ensures PlainSchema(SEARCH)
  {
    SearchWordsArePlain();
    WordsMakePlain(SEARCH, SEARCH_WORDS);
  }

  lemma CreatePoliciesArePlain()
    ensures AllPlain(CREATE_POLICIES)
  {}

  lemma MoreCreatePoliciesArePlain()
    ensures AllPlain(MORE_CREATE_POLICIES)
  {}

  lemma InodeCalcsArePlain()
    ensures AllPlain(INODE_CALCS)
  {}

  const CREATE_KEYS := ["category.create", "inodecalc"]

  lemma CreateKeysArePlain()
    ensures AllPlain(CREATE_KEYS)
  {}

  lemma CreateIsPlain()
    ensures PlainSchema(CREATE + INODES)
  {
    CreatePoliciesArePlain();
    MoreCreatePoliciesArePlain();
    InodeCalcsArePlain();
    CreateKeysArePlain();
    WordsMakePlain(CREATE, CREATE_KEYS + (CREATE_POLICIES + MORE_CREATE_POLICIES));
    WordsMakePlain(INODES, CREATE_KEYS + INODE_CALCS);
    PlainTogether(CREATE, INODES);
  }

  lemma LimitWordsArePlain()
    ensures AllPlain(LIMIT_WORDS)
  {}

  lemma FollowWordsArePlain()
    ensures AllPlain(FOLLOW_WORDS)
  {}

  lemma FollowKeysArePlain()
    ensures AllPlain(FOLLOW_KEYS)
  {}

  lemma LimitsArePlain(sandbox: bool)
    ensures PlainSchema(LIMITS + if sandbox then FOLLOW_SYMLINKS else map[])
  {
    LimitWordsArePlain();
    FollowKeysArePlain();
    FollowWordsArePlain();
    WordsMakePlain(LIMITS, LIMIT_WORDS);
    WordsMakePlain(FOLLOW_SYMLINKS, FOLLOW_KEYS + FOLLOW_WORDS);
    PlainTogether(LIMITS, if sandbox then FOLLOW_SYMLINKS else map[]);
  }

  lemma MergerfsSchemaIsPlain(sandbox: bool)
    ensures PlainSchema(MergerfsSchema(sandbox))
  {
    CachingIsPlain();
    FilesArePlain();
    SearchIsPlain();
    CreateIsPlain();
    LimitsArePlain(sandbox);
    var limits := LIMITS + if sandbox then FOLLOW_SYMLINKS else map[];
    PlainTogether(CACHING, FILES);
    PlainTogether(CACHING + FILES, SEARCH);
    PlainTogether(CREATE + INODES, limits);
    PlainTogether(CACHING + FILES + SEARCH, CREATE + INODES + limits);
  }

  lemma OnOffIsPlain()
    ensures AllPlain(ON_OFF)
  {}

  const LAYER_KEYS := ["default_permissions", "redirect_dir", "index"]
  const IDENTITY_KEYS := ["xino", "uuid", "verity"]
  const METADATA_KEYS := ["metacopy", "userxattr", "nfs_export"]

  lemma LayerKeysArePlain()
    ensures AllPlain(LAYER_KEYS)
  {}

  lemma IdentityKeysArePlain()
    ensures AllPlain(IDENTITY_KEYS)
  {}

  lemma MetadataKeysArePlain()
    ensures AllPlain(METADATA_KEYS)
  {}

  lemma LayersArePlain()
    ensures PlainSchema(LAYERS)
  {
    OnOffIsPlain();
    LayerKeysArePlain();
    WordsMakePlain(LAYERS, LAYER_KEYS + ON_OFF);
  }

  lemma IdentityIsPlain()
    ensures PlainSchema(IDENTITY)
  {
    OnOffIsPlain();
    IdentityKeysArePlain();
    WordsMakePlain(IDENTITY, IDENTITY_KEYS + ON_OFF);
  }

  lemma MetadataIsPlain()
    ensures PlainSchema(METADATA)
  {
    OnOffIsPlain();
    MetadataKeysArePlain();
    WordsMakePlain(METADATA, METADATA_KEYS + ON_OFF);
  }

  lemma OverlaySchemaIsPlain()
    ensures PlainSchema(OVERLAY_SCHEMA)
  {
    LayersArePlain();
    IdentityIsPlain();
    MetadataIsPlain();
    PlainTogether(IDENTITY, METADATA);
    PlainTogether(LAYERS, IDENTITY + METADATA);
  }
}
