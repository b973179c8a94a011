/**
 * An external Iceberg resource: a named set of properties that selects the
 * Iceberg catalog implementation. `setProperties` validates the property map
 * and records the catalog type and the one property that type needs; the
 * resource's display row shows that property.
 *
 * The mapping from the catalog-type string to a catalog type, and whether a
 * class of a given name can be loaded, are parameters.
 */
module Iceberg {
  import opened Wrappers

  const ICEBERG_CATALOG := "starrocks.globalStateMgr-type"
  const ICEBERG_METASTORE_URIS := "iceberg.globalStateMgr.hive.metastore.uris"
  const ICEBERG_IMPL := "iceberg.globalStateMgr-impl"
  /** The lower-case name of the resource type ICEBERG. */
  const LOWER_CASE_TYPE := "iceberg"

  datatype CatalogType = HiveCatalog | CustomCatalog | Unknown

  /** The null-argument precondition failure, or a DdlException with its message. */
  datatype SetError = NullProperties | DdlError(message: string)

  /** A display cell; None is a null cell. */
  type Cell = Option<string>

  /** Character.isWhitespace: the Unicode space separators except the non-breaking ones, and the ASCII controls. */
  predicate IsWhitespace(c: char)
  {
    || c == ' ' || c == '\t' || c == '\n' || c == '\U{000B}' || c == '\U{000C}' || c == '\r'
    || ('\U{001C}' <= c <= '\U{001F}')
    || c == '\U{1680}' || ('\U{2000}' <= c <= '\U{2006}') || ('\U{2008}' <= c <= '\U{200A}')
    || c == '\U{2028}' || c == '\U{2029}' || c == '\U{205F}' || c == '\U{3000}'
  }

  /** StringUtils.isBlank: null, empty, or whitespace only. */
  predicate IsBlank(s: Option<string>)
  {
    s.None? || forall i :: 0 <= i < |s.value| ==> IsWhitespace(s.value[i])
  }

  lemma IsBlankExamples()
    ensures IsBlank(None) && IsBlank(Some("")) && IsBlank(Some(" \t\n"))
    ensures !IsBlank(Some("hive")) && !IsBlank(Some(" custom "))
    ensures IsBlank(Some("\U{3000}")) && !IsBlank(Some("\U{00A0}"))
  {
    assert !IsWhitespace(" custom "[1]);
    assert !IsWhitespace("hive"[0]);
    assert !IsWhitespace("\U{00A0}"[0]);
  }

  /** Map.get: the value for `key`, or null. */
  function Get(props: map<string, string>, key: string): Option<string>
  {
    if key in props then Some(props[key]) else None
  }

  /** The rows of a SHOW PROC result. */
  class ProcResult {
    var rows: seq<seq<Cell>>

    constructor()
      ensures rows == []
    {
      rows := [];
    }

    method AddRow(row: seq<Cell>)
      modifies this`rows
      ensures rows == old(rows) + [row]
    {
      rows := rows + [row];
    }
  }

  class IcebergResource {
    const name: string
    var catalogType: Option<string>
    var metastoreURIs: Option<string>
    var catalogImpl: Option<string>
    /** Stays empty: setProperties validates its argument and never stores the map. */
    var properties: map<string, string>

    constructor(name: string)
      ensures this.name == name
      ensures catalogType.None? && metastoreURIs.None? && catalogImpl.None?
      ensures properties == map[]
    {
      this.name := name;
      catalogType := None;
      metastoreURIs := None;
      catalogImpl := None;
      properties := map[];
    }

    function GetHiveMetastoreURIs(): Option<string>
      reads this
    {
      metastoreURIs
    }

    function GetIcebergImpl(): Option<string>
      reads this
    {
      catalogImpl
    }

    function GetCatalogType(fromString: Option<string> -> CatalogType): CatalogType
      reads this
    {
      fromString(catalogType)
    }

    /** The rows getProcNodeData adds: one for a hive or custom catalog, none otherwise. */
    function ProcRows(fromString: Option<string> -> CatalogType): seq<seq<Cell>>
      reads this
    {
      match GetCatalogType(fromString)
      case HiveCatalog => [[Some(name), Some(LOWER_CASE_TYPE), Some(ICEBERG_METASTORE_URIS), metastoreURIs]]
      case CustomCatalog => [[Some(name), Some(LOWER_CASE_TYPE), Some(ICEBERG_IMPL), catalogImpl]]
      case Unknown => []
    }

    /**
     * Validates `props` and records the catalog type and the property that
     * type needs. Every field named is assigned before it is checked, so a
     * rejected call still leaves the value it read behind.
     */
    method SetProperties(props: Option<map<string, string>>, fromString: Option<string> -> CatalogType,
                         classLoadable: string -> bool)
      returns (error: Option<SetError>)
      modifies this`catalogType, this`metastoreURIs, this`catalogImpl
      ensures props.None? ==> error == Some(NullProperties) && unchanged(this)
      ensures props.Some? ==> catalogType == Get(props.value, ICEBERG_CATALOG)
      ensures props.Some? && IsBlank(catalogType) ==>
        && error == Some(DdlError(ICEBERG_CATALOG + " must be set in properties"))
        && metastoreURIs == old(metastoreURIs) && catalogImpl == old(catalogImpl)
      ensures props.Some? && !IsBlank(catalogType) && GetCatalogType(fromString) == HiveCatalog ==>
        && GetHiveMetastoreURIs() == Get(props.value, ICEBERG_METASTORE_URIS)
        && catalogImpl == old(catalogImpl)
        && error == (if IsBlank(metastoreURIs) then Some(DdlError(ICEBERG_METASTORE_URIS + " must be set in properties"))
                     else None)
      ensures props.Some? && !IsBlank(catalogType) && GetCatalogType(fromString) == CustomCatalog ==>
        && GetIcebergImpl() == Get(props.value, ICEBERG_IMPL)
        && metastoreURIs == old(metastoreURIs)
        && error == (if IsBlank(catalogImpl) then Some(DdlError(ICEBERG_IMPL + " must be set in properties"))
                     else if !classLoadable(catalogImpl.value) then Some(DdlError("Unknown class: " + catalogImpl.value))
                     else None)
      ensures props.Some? && !IsBlank(catalogType) && GetCatalogType(fromString) == Unknown ==>
        && error == Some(DdlError("Unexpected globalStateMgr type: " + catalogType.value))
        && metastoreURIs == old(metastoreURIs) && catalogImpl == old(catalogImpl)
      ensures error.None? ==> |ProcRows(fromString)| == 1 && !IsBlank(ProcRows(fromString)[0][3])
    {
      if props.None? {
        return Some(NullProperties);
      }
      var properties := props.value;
      catalogType := Get(properties, ICEBERG_CATALOG);
      if IsBlank(catalogType) {
        return Some(DdlError(ICEBERG_CATALOG + " must be set in properties"));
      }
      match fromString(catalogType)
      case HiveCatalog =>
        metastoreURIs := Get(properties, ICEBERG_METASTORE_URIS);
        if IsBlank(metastoreURIs) {
          return Some(DdlError(ICEBERG_METASTORE_URIS + " must be set in properties"));
        }
        error := None;
      case CustomCatalog =>
        catalogImpl := Get(properties, ICEBERG_IMPL);
        if IsBlank(catalogImpl) {
          return Some(DdlError(ICEBERG_IMPL + " must be set in properties"));
        }
        if !classLoadable(catalogImpl.value) {
          return Some(DdlError("Unknown class: " + catalogImpl.value));
        }
        error := None;
      case Unknown =>
        error := Some(DdlError("Unexpected globalStateMgr type: " + catalogType.value));
    }

    /** Adds the display row of the resource, for a hive or custom catalog only. */
    method GetProcNodeData(result: ProcResult, fromString: Option<string> -> CatalogType)
      modifies result`rows
      ensures result.rows == old(result.rows) + ProcRows(fromString)
    {
      match fromString(catalogType)
      case HiveCatalog =>
        result.AddRow([Some(name), Some(LOWER_CASE_TYPE), Some(ICEBERG_METASTORE_URIS), metastoreURIs]);
      case CustomCatalog =>
        result.AddRow([Some(name), Some(LOWER_CASE_TYPE), Some(ICEBERG_IMPL), catalogImpl]);
      case Unknown =>
    }
  }

  /**
   * The display row: exactly one row of four cells [name, "iceberg", key,
   * value] for a hive or custom catalog, keyed by the property that catalog
   * type needs, and no row otherwise.
   */
  lemma ProcRowsShape(r: IcebergResource, fromString: Option<string> -> CatalogType)
    ensures var rows := r.ProcRows(fromString);
      && (|rows| == 1 <==> r.GetCatalogType(fromString) != Unknown)
      && (|rows| == 0 <==> r.GetCatalogType(fromString) == Unknown)
      && (|rows| == 1 ==>
            && |rows[0]| == 4
            && rows[0][0] == Some(r.name) && rows[0][1] == Some(LOWER_CASE_TYPE)
            && (r.GetCatalogType(fromString) == HiveCatalog ==>
                  rows[0][2] == Some(ICEBERG_METASTORE_URIS) && rows[0][3] == r.GetHiveMetastoreURIs())
            && (r.GetCatalogType(fromString) == CustomCatalog ==>
                  rows[0][2] == Some(ICEBERG_IMPL) && rows[0][3] == r.GetIcebergImpl()))
  {
  }

  /** setProperties accepts a property map exactly when the catalog type and the property it needs are usable. */
  predicate Acceptable(props: map<string, string>, fromString: Option<string> -> CatalogType,
                       classLoadable: string -> bool)
  {
    var catalog := Get(props, ICEBERG_CATALOG);
    && !IsBlank(catalog)
    && match fromString(catalog)
       case HiveCatalog => !IsBlank(Get(props, ICEBERG_METASTORE_URIS))
       case CustomCatalog =>
         var impl := Get(props, ICEBERG_IMPL);
         !IsBlank(impl) && classLoadable(impl.value)
       case Unknown => false
  }

  /** A fresh resource validating `props`: it succeeds exactly for the acceptable maps. */
  method CreateResource(name: string, props: map<string, string>, fromString: Option<string> -> CatalogType,
                        classLoadable: string -> bool)
    returns (accepted: bool, rowCount: nat)
    ensures accepted <==> Acceptable(props, fromString, classLoadable)
    ensures accepted ==> rowCount == 1
  {
    var resource := new IcebergResource(name);
    var error := resource.SetProperties(Some(props), fromString, classLoadable);
    accepted := error.None?;
    var result := new ProcResult();
    resource.GetProcNodeData(result, fromString);
    rowCount := |result.rows|;
  }
}
