/**
 * The converter's entry point (src/csv_gen.c, `generate_csv_tables`): one
 * pass over the tree to discover the tables, then one file per table.
 */
module Converter {
  import opened JsonTree
  import opened Wrappers
  import opened Registry
  import opened Analyzer
  import opened CsvWriter

  /** The registry the analysis of a whole document builds, starting empty with ids at 1. */
  function Schemas(root: Json): seq<Table> {
    Analysis(root, None, "root", Schema([], 1)).tables
  }

  /**
   * `generate_csv_tables`: a fresh context, the analysis from the root
   * under the key "root", then the files. Files whose paths are in
   * `failing` cannot be opened. The registry it builds has unique names,
   * duplicate-free columns and "id" first in every table; each table
   * whose path opens gets exactly one file, and no path is written twice.
   */
  method GenerateCsvTables(root: Json, dir: string, failing: set<string>) returns (files: seq<CsvFile>)
    ensures files == CsvFiles(Schemas(root), dir, root, failing)
    ensures WellFormed(Schemas(root)) && IdFirst(Schemas(root))
    ensures |files| <= |Schemas(root)| && DistinctPaths(files)
    ensures forall f :: f in files <==> f in AllFiles(Schemas(root), dir, root) && f.path !in failing
  {
    var ctx := new SchemaContext();
    AnalyzeNode(ctx, root, None, "root");
    AnalysisGrows(root, None, "root", Schema([], 1));
    files := WriteCsvFiles(ctx, dir, root, failing);
    CsvFilesSpec(ctx.model, dir, root, failing);
  }
}
