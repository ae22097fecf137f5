/**
 * The graphics and sound settings: the 32-entry snapshot table, its capture from
 * and restoration to the game's config entries, the "minimal graphics" preset,
 * the sound enable/volume pairs, and the agent table lookup.
 */
module GameSettings {
  import opened Wrappers
  import opened Numeric

  /** The game's config entries the plugin touches; every other entry is `Other`. */
  datatype ConfigOption =
    | FPSInActive | DisplayObjectLimitType | WaterWet_DX11 | OcclusionCulling_DX11
    | LodType_DX11 | ReflectionType_DX11 | AntiAliasing_DX11 | TranslucentQuality_DX11
    | GrassQuality_DX11 | ParallaxOcclusion_DX11 | Tessellation_DX11 | GlareRepresentation_DX11
    | MapResolution_DX11 | ShadowVisibilityTypeSelf_DX11 | ShadowVisibilityTypeParty_DX11 | ShadowVisibilityTypeOther_DX11
    | ShadowVisibilityTypeEnemy_DX11 | ShadowLOD_DX11 | ShadowTextureSizeType_DX11 | ShadowCascadeCountType_DX11
    | ShadowSoftShadowType_DX11 | TextureFilterQuality_DX11 | TextureAnisotropicQuality_DX11 | PhysicsTypeSelf_DX11
    | PhysicsTypeParty_DX11 | PhysicsTypeOther_DX11 | PhysicsTypeEnemy_DX11 | RadialBlur_DX11
    | SSAO_DX11 | Glare_DX11 | DistortionWater_DX11 | IsSndMaster
    | SoundMaster | IsSndVoice | IsSndSe
    | Other(id: nat)

  /** The 32 properties of the snapshot table. */
  datatype TableField =
    | FpsInActive | OriginalObjQuantity | WaterWetDx11 | OcclusionCullingDx11
    | LodTypeDx11 | ReflectionTypeDx11 | AntiAliasingDx11 | TranslucentQualityDx11
    | GrassQualityDx11 | ParallaxOcclusionDx11 | TessellationDx11 | GlareRepresentationDx11
    | MapResolutionDx11 | ShadowVisibilityTypeSelfDx11 | ShadowVisibilityTypePartyDx11 | ShadowVisibilityTypeOtherDx11
    | ShadowVisibilityTypeEnemyDx11 | ShadowLodDx11 | ShadowTextureSizeTypeDx11 | ShadowCascadeCountTypeDx11
    | ShadowSoftShadowTypeDx11 | TextureFilterQualityDx11 | TextureAnisotropicQualityDx11 | PhysicsTypeSelfDx11
    | PhysicsTypePartyDx11 | PhysicsTypeOtherDx11 | PhysicsTypeEnemyDx11 | RadialBlurDx11
    | SsaoDx11 | GlareDx11 | DistortionWaterDx11 | SoundEnabled

  /** The config entry each table property is captured from and restored to. */
  function OptionOf(f: TableField): ConfigOption {
    match f
    case FpsInActive => FPSInActive
    case OriginalObjQuantity => DisplayObjectLimitType
    case WaterWetDx11 => WaterWet_DX11
    case OcclusionCullingDx11 => OcclusionCulling_DX11
    case LodTypeDx11 => LodType_DX11
    case ReflectionTypeDx11 => ReflectionType_DX11
    case AntiAliasingDx11 => AntiAliasing_DX11
    case TranslucentQualityDx11 => TranslucentQuality_DX11
    case GrassQualityDx11 => GrassQuality_DX11
    case ParallaxOcclusionDx11 => ParallaxOcclusion_DX11
    case TessellationDx11 => Tessellation_DX11
    case GlareRepresentationDx11 => GlareRepresentation_DX11
    case MapResolutionDx11 => MapResolution_DX11
    case ShadowVisibilityTypeSelfDx11 => ShadowVisibilityTypeSelf_DX11
    case ShadowVisibilityTypePartyDx11 => ShadowVisibilityTypeParty_DX11
    case ShadowVisibilityTypeOtherDx11 => ShadowVisibilityTypeOther_DX11
    case ShadowVisibilityTypeEnemyDx11 => ShadowVisibilityTypeEnemy_DX11
    case ShadowLodDx11 => ShadowLOD_DX11
    case ShadowTextureSizeTypeDx11 => ShadowTextureSizeType_DX11
    case ShadowCascadeCountTypeDx11 => ShadowCascadeCountType_DX11
    case ShadowSoftShadowTypeDx11 => ShadowSoftShadowType_DX11
    case TextureFilterQualityDx11 => TextureFilterQuality_DX11
    case TextureAnisotropicQualityDx11 => TextureAnisotropicQuality_DX11
    case PhysicsTypeSelfDx11 => PhysicsTypeSelf_DX11
    case PhysicsTypePartyDx11 => PhysicsTypeParty_DX11
    case PhysicsTypeOtherDx11 => PhysicsTypeOther_DX11
    case PhysicsTypeEnemyDx11 => PhysicsTypeEnemy_DX11
    case RadialBlurDx11 => RadialBlur_DX11
    case SsaoDx11 => SSAO_DX11
    case GlareDx11 => Glare_DX11
    case DistortionWaterDx11 => DistortionWater_DX11
    case SoundEnabled => ConfigOption.IsSndMaster
  }

  /** The table property a config entry is kept in, if any. */
  function FieldOf(o: ConfigOption): (r: Option<TableField>)
    ensures r.Some? ==> OptionOf(r.value) == o
  {
    match o
    case FPSInActive => Some(FpsInActive)
    case DisplayObjectLimitType => Some(OriginalObjQuantity)
    case WaterWet_DX11 => Some(WaterWetDx11)
    case OcclusionCulling_DX11 => Some(OcclusionCullingDx11)
    case LodType_DX11 => Some(LodTypeDx11)
    case ReflectionType_DX11 => Some(ReflectionTypeDx11)
    case AntiAliasing_DX11 => Some(AntiAliasingDx11)
    case TranslucentQuality_DX11 => Some(TranslucentQualityDx11)
    case GrassQuality_DX11 => Some(GrassQualityDx11)
    case ParallaxOcclusion_DX11 => Some(ParallaxOcclusionDx11)
    case Tessellation_DX11 => Some(TessellationDx11)
    case GlareRepresentation_DX11 => Some(GlareRepresentationDx11)
    case MapResolution_DX11 => Some(MapResolutionDx11)
    case ShadowVisibilityTypeSelf_DX11 => Some(ShadowVisibilityTypeSelfDx11)
    case ShadowVisibilityTypeParty_DX11 => Some(ShadowVisibilityTypePartyDx11)
    case ShadowVisibilityTypeOther_DX11 => Some(ShadowVisibilityTypeOtherDx11)
    case ShadowVisibilityTypeEnemy_DX11 => Some(ShadowVisibilityTypeEnemyDx11)
    case ShadowLOD_DX11 => Some(ShadowLodDx11)
    case ShadowTextureSizeType_DX11 => Some(ShadowTextureSizeTypeDx11)
    case ShadowCascadeCountType_DX11 => Some(ShadowCascadeCountTypeDx11)
    case ShadowSoftShadowType_DX11 => Some(ShadowSoftShadowTypeDx11)
    case TextureFilterQuality_DX11 => Some(TextureFilterQualityDx11)
    case TextureAnisotropicQuality_DX11 => Some(TextureAnisotropicQualityDx11)
    case PhysicsTypeSelf_DX11 => Some(PhysicsTypeSelfDx11)
    case PhysicsTypeParty_DX11 => Some(PhysicsTypePartyDx11)
    case PhysicsTypeOther_DX11 => Some(PhysicsTypeOtherDx11)
    case PhysicsTypeEnemy_DX11 => Some(PhysicsTypeEnemyDx11)
    case RadialBlur_DX11 => Some(RadialBlurDx11)
    case SSAO_DX11 => Some(SsaoDx11)
    case Glare_DX11 => Some(GlareDx11)
    case DistortionWater_DX11 => Some(DistortionWaterDx11)
    case IsSndMaster => Some(SoundEnabled)
    case SoundMaster => None
    case IsSndVoice => None
    case IsSndSe => None
    case Other(_) => None
  }

  /** Every entry the snapshot table refers to exists. */
  predicate HasTableEntries(entries: map<ConfigOption, uint32>) {
    forall f :: OptionOf(f) in entries
  }

  /** The two directions agree: every property has its own entry. */
  lemma FieldOfOptionOf(f: TableField)
    ensures FieldOf(OptionOf(f)) == Some(f)
  {
  }

  /** The value `SetMinimalGfx` writes for each property; None for the one it leaves alone. */
  function MinimalValue(f: TableField): Option<uint32> {
    match f
    case FpsInActive => Some(0)
    case OriginalObjQuantity => Some(4)
    case WaterWetDx11 => Some(0)
    case OcclusionCullingDx11 => Some(1)
    case LodTypeDx11 => Some(1)
    case ReflectionTypeDx11 => Some(0)
    case AntiAliasingDx11 => Some(0)
    case TranslucentQualityDx11 => Some(0)
    case GrassQualityDx11 => Some(0)
    case ParallaxOcclusionDx11 => Some(0)
    case TessellationDx11 => Some(0)
    case GlareRepresentationDx11 => Some(0)
    case MapResolutionDx11 => Some(2)
    case ShadowVisibilityTypeSelfDx11 => Some(0)
    case ShadowVisibilityTypePartyDx11 => Some(0)
    case ShadowVisibilityTypeOtherDx11 => Some(0)
    case ShadowVisibilityTypeEnemyDx11 => Some(0)
    case ShadowLodDx11 => Some(1)
    case ShadowTextureSizeTypeDx11 => Some(0)
    case ShadowCascadeCountTypeDx11 => Some(0)
    case ShadowSoftShadowTypeDx11 => Some(0)
    case TextureFilterQualityDx11 => Some(0)
    case TextureAnisotropicQualityDx11 => Some(0)
    case PhysicsTypeSelfDx11 => Some(0)
    case PhysicsTypePartyDx11 => Some(0)
    case PhysicsTypeOtherDx11 => Some(0)
    case PhysicsTypeEnemyDx11 => Some(0)
    case RadialBlurDx11 => Some(0)
    case SsaoDx11 => Some(0)
    case GlareDx11 => Some(0)
    case DistortionWaterDx11 => Some(0)
    case SoundEnabled => None
  }

  /** The values of a `GameSettingsVarTable`, one per property. */
  datatype VarTableValues = VarTableValues(
    fpsInActive: uint32,
    originalObjQuantity: uint32,
    waterWetDx11: uint32,
    occlusionCullingDx11: uint32,
    lodTypeDx11: uint32,
    reflectionTypeDx11: uint32,
    antiAliasingDx11: uint32,
    translucentQualityDx11: uint32,
    grassQualityDx11: uint32,
    parallaxOcclusionDx11: uint32,
    tessellationDx11: uint32,
    glareRepresentationDx11: uint32,
    mapResolutionDx11: uint32,
    shadowVisibilityTypeSelfDx11: uint32,
    shadowVisibilityTypePartyDx11: uint32,
    shadowVisibilityTypeOtherDx11: uint32,
    shadowVisibilityTypeEnemyDx11: uint32,
    shadowLodDx11: uint32,
    shadowTextureSizeTypeDx11: uint32,
    shadowCascadeCountTypeDx11: uint32,
    shadowSoftShadowTypeDx11: uint32,
    textureFilterQualityDx11: uint32,
    textureAnisotropicQualityDx11: uint32,
    physicsTypeSelfDx11: uint32,
    physicsTypePartyDx11: uint32,
    physicsTypeOtherDx11: uint32,
    physicsTypeEnemyDx11: uint32,
    radialBlurDx11: uint32,
    ssaoDx11: uint32,
    glareDx11: uint32,
    distortionWaterDx11: uint32,
    soundEnabled: uint32)
  {
    function Get(f: TableField): uint32 {
      match f
      case FpsInActive => fpsInActive
      case OriginalObjQuantity => originalObjQuantity
      case WaterWetDx11 => waterWetDx11
      case OcclusionCullingDx11 => occlusionCullingDx11
      case LodTypeDx11 => lodTypeDx11
      case ReflectionTypeDx11 => reflectionTypeDx11
      case AntiAliasingDx11 => antiAliasingDx11
      case TranslucentQualityDx11 => translucentQualityDx11
      case GrassQualityDx11 => grassQualityDx11
      case ParallaxOcclusionDx11 => parallaxOcclusionDx11
      case TessellationDx11 => tessellationDx11
      case GlareRepresentationDx11 => glareRepresentationDx11
      case MapResolutionDx11 => mapResolutionDx11
      case ShadowVisibilityTypeSelfDx11 => shadowVisibilityTypeSelfDx11
      case ShadowVisibilityTypePartyDx11 => shadowVisibilityTypePartyDx11
      case ShadowVisibilityTypeOtherDx11 => shadowVisibilityTypeOtherDx11
      case ShadowVisibilityTypeEnemyDx11 => shadowVisibilityTypeEnemyDx11
      case ShadowLodDx11 => shadowLodDx11
      case ShadowTextureSizeTypeDx11 => shadowTextureSizeTypeDx11
      case ShadowCascadeCountTypeDx11 => shadowCascadeCountTypeDx11
      case ShadowSoftShadowTypeDx11 => shadowSoftShadowTypeDx11
      case TextureFilterQualityDx11 => textureFilterQualityDx11
      case TextureAnisotropicQualityDx11 => textureAnisotropicQualityDx11
      case PhysicsTypeSelfDx11 => physicsTypeSelfDx11
      case PhysicsTypePartyDx11 => physicsTypePartyDx11
      case PhysicsTypeOtherDx11 => physicsTypeOtherDx11
      case PhysicsTypeEnemyDx11 => physicsTypeEnemyDx11
      case RadialBlurDx11 => radialBlurDx11
      case SsaoDx11 => ssaoDx11
      case GlareDx11 => glareDx11
      case DistortionWaterDx11 => distortionWaterDx11
      case SoundEnabled => soundEnabled
    }
  }

  /** `GameSettingsVarTable`: the snapshot object the plugin keeps and hands around by reference. */
  class GameSettingsVarTable {
    var values: VarTableValues

    constructor ()
      ensures forall f :: values.Get(f) == 0
    {
      values := VarTableValues(0, 0, 0, 0, 0, 0, 0, 0, 0, 0, 0, 0, 0, 0, 0, 0, 0, 0, 0, 0, 0, 0, 0, 0, 0, 0, 0, 0, 0, 0, 0, 0);
    }
  }

  /** The six "low" values `CheckLowSettings` looks for. */
  predicate IsLow(t: VarTableValues) {
    && t.Get(OriginalObjQuantity) == 4
    && t.Get(WaterWetDx11) == 0
    && t.Get(OcclusionCullingDx11) == 1
    && t.Get(ReflectionTypeDx11) == 3
    && t.Get(GrassQualityDx11) == 3
    && t.Get(SsaoDx11) == 4
  }

  /** `CheckLowSettings`: the table exists and holds the six "low" values. */
  predicate CheckLowSettings(varTable: GameSettingsVarTable?)
    reads varTable
  {
    varTable != null && IsLow(varTable.values)
  }

  /** The snapshot of the config entries that `GetSettings` takes. */
  function Capture(entries: map<ConfigOption, uint32>): (t: VarTableValues)
    requires HasTableEntries(entries)
  {
    VarTableValues(
      entries[OptionOf(FpsInActive)],
      entries[OptionOf(OriginalObjQuantity)],
      entries[OptionOf(WaterWetDx11)],
      entries[OptionOf(OcclusionCullingDx11)],
      entries[OptionOf(LodTypeDx11)],
      entries[OptionOf(ReflectionTypeDx11)],
      entries[OptionOf(AntiAliasingDx11)],
      entries[OptionOf(TranslucentQualityDx11)],
      entries[OptionOf(GrassQualityDx11)],
      entries[OptionOf(ParallaxOcclusionDx11)],
      entries[OptionOf(TessellationDx11)],
      entries[OptionOf(GlareRepresentationDx11)],
      entries[OptionOf(MapResolutionDx11)],
      entries[OptionOf(ShadowVisibilityTypeSelfDx11)],
      entries[OptionOf(ShadowVisibilityTypePartyDx11)],
      entries[OptionOf(ShadowVisibilityTypeOtherDx11)],
      entries[OptionOf(ShadowVisibilityTypeEnemyDx11)],
      entries[OptionOf(ShadowLodDx11)],
      entries[OptionOf(ShadowTextureSizeTypeDx11)],
      entries[OptionOf(ShadowCascadeCountTypeDx11)],
      entries[OptionOf(ShadowSoftShadowTypeDx11)],
      entries[OptionOf(TextureFilterQualityDx11)],
      entries[OptionOf(TextureAnisotropicQualityDx11)],
      entries[OptionOf(PhysicsTypeSelfDx11)],
      entries[OptionOf(PhysicsTypePartyDx11)],
      entries[OptionOf(PhysicsTypeOtherDx11)],
      entries[OptionOf(PhysicsTypeEnemyDx11)],
      entries[OptionOf(RadialBlurDx11)],
      entries[OptionOf(SsaoDx11)],
      entries[OptionOf(GlareDx11)],
      entries[OptionOf(DistortionWaterDx11)],
      entries[OptionOf(SoundEnabled)])
  }

  /** Each property of the snapshot holds the value of its own config entry. */
  lemma CaptureGet(entries: map<ConfigOption, uint32>, f: TableField)
    requires HasTableEntries(entries)
    ensures Capture(entries).Get(f) == entries[OptionOf(f)]
  {
    match f
    case FpsInActive =>
    case OriginalObjQuantity =>
    case WaterWetDx11 =>
    case OcclusionCullingDx11 =>
    case LodTypeDx11 =>
    case ReflectionTypeDx11 =>
    case AntiAliasingDx11 =>
    case TranslucentQualityDx11 =>
    case GrassQualityDx11 =>
    case ParallaxOcclusionDx11 =>
    case TessellationDx11 =>
    case GlareRepresentationDx11 =>
    case MapResolutionDx11 =>
    case ShadowVisibilityTypeSelfDx11 =>
    case ShadowVisibilityTypePartyDx11 =>
    case ShadowVisibilityTypeOtherDx11 =>
    case ShadowVisibilityTypeEnemyDx11 =>
    case ShadowLodDx11 =>
    case ShadowTextureSizeTypeDx11 =>
    case ShadowCascadeCountTypeDx11 =>
    case ShadowSoftShadowTypeDx11 =>
    case TextureFilterQualityDx11 =>
    case TextureAnisotropicQualityDx11 =>
    case PhysicsTypeSelfDx11 =>
    case PhysicsTypePartyDx11 =>
    case PhysicsTypeOtherDx11 =>
    case PhysicsTypeEnemyDx11 =>
    case RadialBlurDx11 =>
    case SsaoDx11 =>
    case GlareDx11 =>
    case DistortionWaterDx11 =>
    case SoundEnabled =>
  }

  /** The config entries after `RestoreSettings` writes the snapshot `t` back. */
  function Restore(entries: map<ConfigOption, uint32>, t: VarTableValues): (r: map<ConfigOption, uint32>)
    ensures r.Keys == entries.Keys
    ensures forall f :: OptionOf(f) in entries ==> r[OptionOf(f)] == t.Get(f)
    ensures forall o :: o in entries && FieldOf(o).None? ==> r[o] == entries[o]
  {
    assert forall f :: FieldOf(OptionOf(f)) == Some(f) by {
      forall f { FieldOfOptionOf(f); }
    }
    map o | o in entries :: match FieldOf(o) case Some(f) => t.Get(f) case None => entries[o]
  }

  /** The config entries after `SetMinimalGfx`. */
  function Minimal(entries: map<ConfigOption, uint32>): (r: map<ConfigOption, uint32>)
    ensures r.Keys == entries.Keys
    ensures forall f :: OptionOf(f) in entries && MinimalValue(f).Some? ==> r[OptionOf(f)] == MinimalValue(f).value
    ensures forall o :: o in entries && (FieldOf(o).None? || MinimalValue(FieldOf(o).value).None?) ==>
      r[o] == entries[o]
  {
    assert forall f :: FieldOf(OptionOf(f)) == Some(f) by {
      forall f { FieldOfOptionOf(f); }
    }
    map o | o in entries ::
      match FieldOf(o)
      case Some(f) => (match MinimalValue(f) case Some(v) => v case None => entries[o])
      case None => entries[o]
  }

  /** Restoring a snapshot and taking a new one gives the same snapshot back. */
  lemma CaptureOfRestore(entries: map<ConfigOption, uint32>, t: VarTableValues)
    requires HasTableEntries(entries)
    ensures HasTableEntries(Restore(entries, t))
    ensures forall f :: Capture(Restore(entries, t)).Get(f) == t.Get(f)
  {
    var r := Restore(entries, t);
    forall f
      ensures Capture(r).Get(f) == t.Get(f)
    {
      CaptureGet(r, f);
    }
  }

  /** Taking a snapshot and restoring it leaves every config entry as it was. */
  lemma RestoreOfCapture(entries: map<ConfigOption, uint32>)
    requires HasTableEntries(entries)
    ensures Restore(entries, Capture(entries)) == entries
  {
    var r := Restore(entries, Capture(entries));
    forall o | o in entries
      ensures r[o] == entries[o]
    {
      if FieldOf(o).Some? {
        CaptureGet(entries, FieldOf(o).value);
      }
    }
  }

  /** The minimal preset leaves the sound entries alone: every flag and the volume read back as before. */
  lemma MinimalKeepsSound(entries: map<ConfigOption, uint32>)
    requires HasTableEntries(entries)
    ensures Minimal(entries)[OptionOf(SoundEnabled)] == entries[OptionOf(SoundEnabled)]
    ensures forall o :: StoredFlag(Minimal(entries), o) == StoredFlag(entries, o)
    ensures StoredVolume(Minimal(entries)) == StoredVolume(entries)
  {
    var m := Minimal(entries);
    forall o
      ensures StoredFlag(m, o) == StoredFlag(entries, o)
    {
      var e := EntryOf(o);
      assert FieldOf(e).None? || FieldOf(e) == Some(SoundEnabled);
    }
    assert FieldOf(ConfigOption.SoundMaster).None?;
  }

  /** Every config entry the table refers to is the entry of exactly one property. */
  lemma OptionOfFieldOf(o: ConfigOption)
    requires FieldOf(o).Some?
    ensures OptionOf(FieldOf(o).value) == o
  {
  }

  /** Applying the preset twice is applying it once. */
  lemma MinimalIdempotent(entries: map<ConfigOption, uint32>)
    ensures Minimal(Minimal(entries)) == Minimal(entries)
  {
    var m := Minimal(entries);
    forall o | o in m
      ensures Minimal(m)[o] == m[o]
    {
      if FieldOf(o).Some? && MinimalValue(FieldOf(o).value).Some? {
        OptionOfFieldOf(o);
      }
    }
  }

  /** Two maps with the same keys and the same value at every key are equal. */
  lemma SameEntries<K, V>(a: map<K, V>, b: map<K, V>)
    requires a.Keys == b.Keys && forall k :: k in a ==> a[k] == b[k]
    ensures a == b
  {
  }

  /**
   * Snapshot, preset, restore: the entries come back exactly as they were, the
   * sound entry and every entry outside the table included.
   */
  lemma RestoreUndoesMinimal(entries: map<ConfigOption, uint32>)
    requires HasTableEntries(entries)
    ensures Restore(Minimal(entries), Capture(entries)) == entries
  {
    var t := Capture(entries);
    var m := Minimal(entries);
    var r := Restore(m, t);
    forall o | o in entries
      ensures r[o] == entries[o]
    {
      match FieldOf(o)
      case Some(f) =>
        OptionOfFieldOf(o);
        CaptureGet(entries, f);
        assert r[OptionOf(f)] == t.Get(f);
      case None =>
        assert r[o] == m[o];
    }
    SameEntries(r, entries);
  }

  /** A snapshot taken after the minimal preset holds the preset's values. */
  lemma CaptureOfMinimal(entries: map<ConfigOption, uint32>)
    requires HasTableEntries(entries)
    ensures HasTableEntries(Minimal(entries))
    ensures forall f :: MinimalValue(f).Some? ==> Capture(Minimal(entries)).Get(f) == MinimalValue(f).value
  {
    var m := Minimal(entries);
    forall f | MinimalValue(f).Some?
      ensures Capture(m).Get(f) == MinimalValue(f).value
    {
      CaptureGet(m, f);
    }
  }

  /** A table holding the preset's values is not "low": the preset writes 0 where the check wants 3 and 4. */
  lemma MinimalSnapshotIsNotLow(t: VarTableValues)
    requires forall f :: MinimalValue(f).Some? ==> t.Get(f) == MinimalValue(f).value
    ensures !IsLow(t)
  {
    assert t.Get(ReflectionTypeDx11) == 0;
  }

  /** The game's common system config: the value of each config entry. */
  class SystemConfig {
    var entries: map<ConfigOption, uint32>

    /** Every entry the snapshot table refers to exists. */
    predicate Valid()
      reads this
    {
      HasTableEntries(entries)
    }

    constructor (entries: map<ConfigOption, uint32>)
      ensures this.entries == entries
    {
      this.entries := entries;
    }

    /** `GetSettings`: copies the 32 entries into the table; a null table is left alone. */
    method GetSettings(varTable: GameSettingsVarTable?)
      requires Valid()
      modifies varTable
      ensures varTable != null ==> varTable.values == Capture(entries)
      ensures varTable != null ==> forall f :: varTable.values.Get(f) == entries[OptionOf(f)]
    {
      if varTable != null {
        varTable.values := Capture(entries);
        forall f
          ensures varTable.values.Get(f) == entries[OptionOf(f)]
        {
          CaptureGet(entries, f);
        }
      }
    }

    /**
     * `RestoreSettings`: writes the 32 table values back, the master-sound flag
     * included; no other entry changes, and a null table writes nothing.
     */
    method RestoreSettings(varTable: GameSettingsVarTable?)
      requires Valid()
      modifies this
      ensures Valid()
      ensures varTable == null ==> entries == old(entries)
      ensures varTable != null ==> entries == Restore(old(entries), varTable.values)
      ensures varTable != null ==> forall f :: Capture(entries).Get(f) == varTable.values.Get(f)
      ensures varTable != null ==>
        StoredFlag(entries, SystemConfigOption.IsSndMaster) == (varTable.values.soundEnabled != 0)
    {
      if varTable != null {
        entries := Restore(entries, varTable.values);
        CaptureOfRestore(old(entries), varTable.values);
        RestoreSetsMasterFlag(old(entries), varTable.values);
      }
    }

    /** `SetMinimalGfx`: writes the preset into 31 entries; the sound entry and all others keep their values. */
    method SetMinimalGfx()
      requires Valid()
      modifies this
      ensures Valid()
      ensures entries == Minimal(old(entries))
    {
      entries := Minimal(entries);
    }
  }

  // ---------------------------------------------------------------------------
  // Sound settings
  // ---------------------------------------------------------------------------

  /** The options of the host's System config section that the sound settings use. */
  datatype SystemConfigOption = IsSndMaster | SoundMaster | IsSndVoice | IsSndSe

  /**
   * The entry of the common system config that an option of the System section
   * names. The section looks its options up by name in that same config, so the
   * master-sound flag is the entry the snapshot table keeps as `SoundEnabled`,
   * and the other three are entries outside the table.
   */
  function EntryOf(o: SystemConfigOption): (r: ConfigOption)
    ensures o == SystemConfigOption.IsSndMaster <==> FieldOf(r) == Some(SoundEnabled)
    ensures o != SystemConfigOption.IsSndMaster ==> FieldOf(r).None?
  {
    match o
    case IsSndMaster => ConfigOption.IsSndMaster
    case SoundMaster => ConfigOption.SoundMaster
    case IsSndVoice => ConfigOption.IsSndVoice
    case IsSndSe => ConfigOption.IsSndSe
  }

  /** Different options name different entries. */
  lemma EntryOfInjective(a: SystemConfigOption, b: SystemConfigOption)
    ensures EntryOf(a) == EntryOf(b) ==> a == b
  {
  }

  /** The unsigned value the System section stores for a flag: 1 for true, 0 for false. */
  function FlagValue(b: bool): uint32 {
    if b then 1 else 0
  }

  /** `TryGet(option, out bool) && flag`: the entry exists and is not zero. */
  function StoredFlag(entries: map<ConfigOption, uint32>, option: SystemConfigOption): bool {
    EntryOf(option) in entries && entries[EntryOf(option)] != 0
  }

  /** The stored master volume read back as `int`, or -1 when there is no such entry. */
  function StoredVolume(entries: map<ConfigOption, uint32>): int32 {
    if ConfigOption.SoundMaster in entries then ToInt32(entries[ConfigOption.SoundMaster]) else -1
  }

  /**
   * Restoring a snapshot rewrites the master-sound flag to the one the table
   * holds; the voice and effects flags and the volume keep their values.
   */
  lemma RestoreSetsMasterFlag(entries: map<ConfigOption, uint32>, t: VarTableValues)
    requires HasTableEntries(entries)
    ensures StoredFlag(Restore(entries, t), SystemConfigOption.IsSndMaster) == (t.soundEnabled != 0)
    ensures forall o :: o != SystemConfigOption.IsSndMaster ==> StoredFlag(Restore(entries, t), o) == StoredFlag(entries, o)
    ensures StoredVolume(Restore(entries, t)) == StoredVolume(entries)
  {
    var r := Restore(entries, t);
    assert r[OptionOf(SoundEnabled)] == t.Get(SoundEnabled);
    forall o | o != SystemConfigOption.IsSndMaster
      ensures StoredFlag(r, o) == StoredFlag(entries, o)
    {
      assert FieldOf(EntryOf(o)).None?;
    }
    assert FieldOf(ConfigOption.SoundMaster).None?;
  }

  /** Writing an entry outside the snapshot table changes no snapshot. */
  lemma CaptureOfOutsideWrite(entries: map<ConfigOption, uint32>, k: ConfigOption, v: uint32)
    requires HasTableEntries(entries) && FieldOf(k).None?
    ensures HasTableEntries(entries[k := v])
    ensures Capture(entries[k := v]) == Capture(entries)
  {
    forall f
      ensures OptionOf(f) != k
    {
      FieldOfOptionOf(f);
    }
  }

  /** `Api.GameConfig`: the host's typed view of the common system config. */
  class GameConfig {
    const system: SystemConfig

    constructor (system: SystemConfig)
      ensures this.system == system
    {
      this.system := system;
    }
  }

  /**
   * The stored flag means "muted", so enabling stores false. The flag is an
   * entry of the common system config; without a config nothing happens.
   */
  method SetSoundEnable(config: GameConfig?, option: SystemConfigOption, enabled: bool)
    modifies if config != null then {config.system} else {}
    ensures config != null ==>
      config.system.entries == old(config.system.entries)[EntryOf(option) := FlagValue(!enabled)]
    ensures config != null ==> GetSoundEnable(config, option) == !enabled
    ensures config != null && old(config.system.Valid()) ==> config.system.Valid()
  {
    if config != null {
      config.system.entries := config.system.entries[EntryOf(option) := FlagValue(!enabled)];
    }
  }

  /** The stored flag, or false when there is no config or no such entry. */
  function GetSoundEnable(config: GameConfig?, option: SystemConfigOption): (r: bool)
    reads if config != null then {config.system} else {}
    ensures r ==> config != null && EntryOf(option) in config.system.entries
    ensures config != null && EntryOf(option) in config.system.entries ==>
      (r <==> config.system.entries[EntryOf(option)] != 0)
  {
    config != null && StoredFlag(config.system.entries, option)
  }

  /** Mutes or unmutes the game: the flag the next graphics snapshot captures as `SoundEnabled`. */
  method SetMasterSoundEnable(config: GameConfig?, enabled: bool)
    modifies if config != null then {config.system} else {}
    ensures config != null ==>
      config.system.entries == old(config.system.entries)[ConfigOption.IsSndMaster := FlagValue(!enabled)]
    ensures config != null ==> GetMasterSoundEnable(config) == !enabled
    ensures config != null && old(config.system.Valid()) ==>
      config.system.Valid() && Capture(config.system.entries).soundEnabled == FlagValue(!enabled)
  {
    SetSoundEnable(config, SystemConfigOption.IsSndMaster, enabled);
  }

  function GetMasterSoundEnable(config: GameConfig?): bool
    reads if config != null then {config.system} else {}
  {
    GetSoundEnable(config, SystemConfigOption.IsSndMaster)
  }

  /** Mutes or unmutes the voices; no entry of the snapshot table changes. */
  method SetVoiceSoundEnable(config: GameConfig?, enabled: bool)
    modifies if config != null then {config.system} else {}
    ensures config != null ==>
      config.system.entries == old(config.system.entries)[ConfigOption.IsSndVoice := FlagValue(!enabled)]
    ensures config != null ==> GetVoiceSoundEnable(config) == !enabled
    ensures config != null && old(config.system.Valid()) ==>
      config.system.Valid() && Capture(config.system.entries) == Capture(old(config.system.entries))
  {
    if config != null && config.system.Valid() {
      CaptureOfOutsideWrite(config.system.entries, ConfigOption.IsSndVoice, FlagValue(!enabled));
    }
    SetSoundEnable(config, SystemConfigOption.IsSndVoice, enabled);
  }

  function GetVoiceSoundEnable(config: GameConfig?): bool
    reads if config != null then {config.system} else {}
  {
    GetSoundEnable(config, SystemConfigOption.IsSndVoice)
  }

  /** Mutes or unmutes the sound effects; no entry of the snapshot table changes. */
  method SetEffectsSoundEnable(config: GameConfig?, enabled: bool)
    modifies if config != null then {config.system} else {}
    ensures config != null ==>
      config.system.entries == old(config.system.entries)[ConfigOption.IsSndSe := FlagValue(!enabled)]
    ensures config != null ==> GetEffectsSoundEnable(config) == !enabled
    ensures config != null && old(config.system.Valid()) ==>
      config.system.Valid() && Capture(config.system.entries) == Capture(old(config.system.entries))
  {
    if config != null && config.system.Valid() {
      CaptureOfOutsideWrite(config.system.entries, ConfigOption.IsSndSe, FlagValue(!enabled));
    }
    SetSoundEnable(config, SystemConfigOption.IsSndSe, enabled);
  }

  function GetEffectsSoundEnable(config: GameConfig?): bool
    reads if config != null then {config.system} else {}
  {
    GetSoundEnable(config, SystemConfigOption.IsSndSe)
  }

  /** Stores the 16-bit volume as `uint` (sign-extended); no entry of the snapshot table changes. */
  method SetMasterSoundVolume(config: GameConfig?, value: int16)
    modifies if config != null then {config.system} else {}
    ensures config != null ==>
      config.system.entries == old(config.system.entries)[ConfigOption.SoundMaster := ToUInt32(value)]
    ensures config != null ==> GetMasterSoundVolume(config) == value
    ensures config != null && old(config.system.Valid()) ==>
      config.system.Valid() && Capture(config.system.entries) == Capture(old(config.system.entries))
  {
    if config != null {
      if config.system.Valid() {
        CaptureOfOutsideWrite(config.system.entries, ConfigOption.SoundMaster, ToUInt32(value));
      }
      config.system.entries := config.system.entries[ConfigOption.SoundMaster := ToUInt32(value)];
      Int16ThroughUInt32(value);
    }
  }

  /** The stored volume read back as `int`, or -1 when there is no config or no entry. */
  function GetMasterSoundVolume(config: GameConfig?): (r: int32)
    reads if config != null then {config.system} else {}
    ensures config == null || ConfigOption.SoundMaster !in config.system.entries ==> r == -1
    ensures config != null && ConfigOption.SoundMaster in config.system.entries ==>
      ToUInt32(r) == config.system.entries[ConfigOption.SoundMaster]
  {
    if config != null then StoredVolume(config.system.entries) else -1
  }

  /** A stored volume of -1 reads back exactly like an unavailable config. */
  lemma StoredMinusOneLooksUnavailable(config: GameConfig)
    requires ConfigOption.SoundMaster in config.system.entries
    requires config.system.entries[ConfigOption.SoundMaster] == ToUInt32(-1)
    ensures GetMasterSoundVolume(config) == GetMasterSoundVolume(null) == -1
  {
  }

  // ---------------------------------------------------------------------------
  // Agents
  // ---------------------------------------------------------------------------

  /** An agent of the game's UI module: its address, the vtable found there, and its index. */
  datatype AgentInterface = AgentInterface(pointer: nat, vTable: nat, id: int)

  /** The index of the first agent with vtable `vtbl`. */
  function FirstWithVtable(table: seq<AgentInterface>, vtbl: nat): (r: Option<nat>)
    ensures r.Some? ==> r.value < |table| && table[r.value].vTable == vtbl
    ensures r.Some? ==> forall j :: 0 <= j < r.value ==> table[j].vTable != vtbl
    ensures r.None? <==> forall j :: 0 <= j < |table| ==> table[j].vTable != vtbl
  {
    if table == [] then None
    else if table[0].vTable == vtbl then Some(0)
    else match FirstWithVtable(table[1..], vtbl)
      case None => None
      case Some(k) => Some(k + 1)
  }

  /** `First` throws InvalidOperationException when nothing matches. */
  datatype LookupError = NoMatchingAgent

  class AgentManager {
    var agentTable: seq<AgentInterface>

    /**
     * `agents` lists the agent pointers with the vtable read at each, or is None
     * when the framework lookup throws (the table then stays empty).
     */
    constructor (agents: Option<seq<(nat, nat)>>)
      ensures agents.None? ==> agentTable == []
      ensures agents.Some? ==> |agentTable| == |agents.value|
      ensures agents.Some? ==> forall k :: 0 <= k < |agentTable| ==>
        agentTable[k] == AgentInterface(agents.value[k].0, agents.value[k].1, k)
    {
      var table: seq<AgentInterface> := [];
      if agents.Some? {
        var i := 0;
        while i < |agents.value|
          invariant 0 <= i <= |agents.value| && |table| == i
          invariant forall k :: 0 <= k < i ==> table[k] == AgentInterface(agents.value[k].0, agents.value[k].1, k)
        {
          table := table + [AgentInterface(agents.value[i].0, agents.value[i].1, i)];
          i := i + 1;
        }
      }
      agentTable := table;
    }

    /** The first agent with vtable `vtbl`, or the exception `First` raises. */
    function FindAgentInterfaceByVtable(vtbl: nat): (r: Result<AgentInterface, LookupError>)
      reads this
      ensures r.Success? ==> r.value in agentTable && r.value.vTable == vtbl
      ensures r.Success? ==> exists k :: 0 <= k < |agentTable| && agentTable[k] == r.value &&
                                 forall j :: 0 <= j < k ==> agentTable[j].vTable != vtbl
      ensures r.Failure? <==> forall j :: 0 <= j < |agentTable| ==> agentTable[j].vTable != vtbl
    {
      match FirstWithVtable(agentTable, vtbl)
      case None => Failure(NoMatchingAgent)
      case Some(k) => Success(agentTable[k])
    }
  }
}
