# FileType — classification of graph-build directory files

A Dafny model of OpenTripPlanner's `FileType` enumeration
(`org.opentripplanner.datastore.FileType`). This closed list names the kinds
of file that may appear in a router or graph-build directory: config files,
OpenStreetMap data, elevation (DEM) data, GTFS and NeTEx transit schedules,
the serialized graph, the issue report, the build-status marker, and a
catch-all for unknown files. Each kind has a fixed emoji icon and a fixed
description. Three predicates classify the kinds:

- input data sources: GTFS, NeTEx, OpenStreetMap and elevation data;
- output data sources: the graph, the report and the build-status file;
- transit data: GTFS and NeTEx.

The model is one module, `FileTypes`, in `FileType.dfy`:

- `datatype FileType` has the nine variants in declaration order.
- `Icon` and `Text` are total functions that return the source's literals.
  The icons are written as `\U{...}` code-point escapes. The config icon is
  U+2699 followed by the variation selector U+FE0F.
- Each Java `EnumSet.of(...).contains(this)` becomes membership in a named
  `set<FileType>` constant: `InputDataSources`, `OutputDataSources`,
  `TransitDataSources`.
- Two independent views back the lemmas. `AllFileTypes` lists every kind
  once, and `KindsWhere(p)` collects the kinds that satisfy `p`. `FlagTable`
  spells out the three flags kind by kind.

## Model

| member | source | states |
|---|---|---|
| FileTypes.Icon | src/main/java/org/opentripplanner/datastore/FileType.java:12-20 | every kind has a non-empty icon of at most two code points, and the icon is the bus emoji exactly when the kind is transit data |
| FileTypes.Text | src/main/java/org/opentripplanner/datastore/FileType.java:37-39 | every kind has a non-empty description |
| FileTypes.AllFileTypesIsComplete | src/main/java/org/opentripplanner/datastore/FileType.java:11-20 | the enumeration is closed: exactly nine kinds exist, and the declaration-order listing contains every kind once |
| FileTypes.PredicatesMatchFlagTable | src/main/java/org/opentripplanner/datastore/FileType.java:47-64 | on every kind, the three set-membership predicates give the same answers as a per-kind table of (input, output, transit) flags |
| FileTypes.InputDataSourcesExactly | src/main/java/org/opentripplanner/datastore/FileType.java:41-49 | out of all kinds, exactly GTFS, NETEX, OSM and DEM are input data sources: four kinds |
| FileTypes.OutputDataSourcesExactly | src/main/java/org/opentripplanner/datastore/FileType.java:51-57 | out of all kinds, exactly GRAPH, REPORT and OTP_STATUS are output data sources: three kinds |
| FileTypes.TransitExactly | src/main/java/org/opentripplanner/datastore/FileType.java:59-64 | out of all kinds, exactly GTFS and NETEX are transit data: two kinds |
| FileTypes.IsInputDataSource | src/main/java/org/opentripplanner/datastore/FileType.java:41-49 | config files and graphs are never input data sources |
| FileTypes.IsOutputDataSource | src/main/java/org/opentripplanner/datastore/FileType.java:51-57 | config files are never output data sources, and no kind is both an output and an input data source |
| FileTypes.IsTransit | src/main/java/org/opentripplanner/datastore/FileType.java:59-64 | every transit kind (GTFS or NETEX) is also an input data source |
| FileTypes.Partition | src/main/java/org/opentripplanner/datastore/FileType.java:41-57 | the kinds that are neither input nor output data sources are exactly CONFIG and UNKNOWN |
| FileTypes.ConfigAndUnknownUnclassified | src/main/java/org/opentripplanner/datastore/FileType.java:12-64 | config files and unknown files are neither input, output nor transit data |
| FileTypes.TextInjective | src/main/java/org/opentripplanner/datastore/FileType.java:12-20 | two kinds have the same description if and only if they are the same kind |
| FileTypes.IconCollisions | src/main/java/org/opentripplanner/datastore/FileType.java:12-20 | two kinds have the same icon if and only if they are the same kind or both are transit kinds (GTFS and NETEX share the bus emoji) |

## Left out

- The mapping from real file names or extensions to a `FileType` is not part of this model. Neither are the directory scan and the warning about unknown files described in the class comment (lines 6-9). That code lives outside `FileType.java`.
- The rule that at least one input data file must be present to build a graph (line 45) is enforced by the graph-build orchestrator, which is not part of this model. This model only supplies the predicate it uses.
- The `EnumSet` allocated on each predicate call is a Java library detail. It is modelled as membership in a constant set.
- Java's enum machinery (`values()`, `valueOf`, `ordinal`) is not used by this file and is not modelled.
- How the emoji icons are rendered is a display concern. Only the icons' identity as code-point strings is modelled.
