# Bloom options and camera marshalling

A model of two pieces of local logic in the React Native bindings for the
Filament renderer. Everything else in these wrappers hands its arguments to
Filament, which is not part of this model.

- **Bloom options** (module `Bloom`). `BloomOptionsWrapper` exposes 17 fields
  of Filament's `BloomOptions` to JavaScript. Each field has a getter and a
  setter. The class here has one field per property, and each setter's
  contract gives the complete new state in terms of the old one. The state is
  also a value: the datatype `BloomOptions`, with `Read` (what a getter
  returns) and `Assign` (what a setter leaves behind). The set-then-get,
  nothing-else-changes and failed-set-changes-nothing properties are proved
  about `Read` and `Assign`.
- **The blend mode codec**. `blendModeFromString` and `blendModeToString`
  become two functions, proved to be inverse on the strings "ADD" and
  "INTERPOLATE". Every other string fails with the invalid-union error, and
  the error message embeds the string that was passed.
- **The registration table**. `loadHybridMethods` registers a getter and a
  setter under each property's name. The model is that table in registration
  order, with the lemma that it exposes exactly the 17 properties.
- **Camera matrix marshalling** (modules `Matrices` and `Cameras`). The host
  passes a 4x4 matrix as 16 numbers in column-major order:
  `flat[4*c + r] = m[c][r]`. `Pack` and `Unpack` are proved to be mutual
  inverses. `CameraWrapper` holds an engine `Camera`, modelled by its model
  matrix and its projection. Its setters refuse an array whose length is not
  16 and a null manipulator, and then leave the camera unchanged.

C++ `double` and `float` values are Dafny `real`s and the integer fields are
Dafny `int`s; neither is limited to a width here. Thrown exceptions become a returned `Result` or `Outcome`
carrying the exception type and message (module `Results`).

## Model

| member | source | states |
|---|---|---|
| Bloom.InvalidUnion | package/cpp/core/RNFBloomOptionsWrapper.h:59-61 | a runtime error whose message is the fixed invalid-union text with the passed string embedded between `("` and `")` |
| Bloom.InvalidUnionInjective | package/cpp/core/RNFBloomOptionsWrapper.h:59-61 | the passed string can be recovered from the message: different strings give different errors |
| Bloom.BlendModeFromString | package/cpp/core/RNFBloomOptionsWrapper.h:68-76 | "ADD" decodes to ADD and "INTERPOLATE" to INTERPOLATE (each if and only if), and every other string fails with the invalid-union error for that string |
| Bloom.BlendModeToString | package/cpp/core/RNFBloomOptionsWrapper.h:77-86 | every mode is given an accepted name that decodes back to the same mode |
| Bloom.BlendModeNameRoundTrip | package/cpp/core/RNFBloomOptionsWrapper.h:68-86 | decoding an accepted string and encoding the mode gives the same string back |
| Bloom.BlendModeToStringInjective | package/cpp/core/RNFBloomOptionsWrapper.h:77-86 | two modes have the same name if and only if they are the same mode |
| Bloom.PropertiesEnumerateOnce | package/cpp/core/RNFBloomOptionsWrapper.h:19-54 | the registration order lists each of the 17 properties exactly once |
| Bloom.NameInjective | package/cpp/core/RNFBloomOptionsWrapper.h:19-54 | two properties have the same host name if and only if they are the same property |
| Bloom.RegistrationsAt | package/cpp/core/RNFBloomOptionsWrapper.h:19-54 | entry 2i of the registration table is the getter of the i-th property and entry 2i+1 its setter, both under that property's name |
| Bloom.RegistrationsExpose | package/cpp/core/RNFBloomOptionsWrapper.h:19-54 | for a list with no repeats, every entry carries its property's name, each listed property gets a getter and a setter, and no entry appears twice |
| Bloom.HybridMethodsExposeEveryProperty | package/cpp/core/RNFBloomOptionsWrapper.h:19-54 | `loadHybridMethods` registers 34 distinct entries: every one of the 17 properties has a getter and a setter under its own name, and nothing else (no dirt properties); entries with the same name belong to the same property |
| Bloom.Read | package/cpp/core/RNFBloomOptionsWrapper.h:89-164 | every getter returns a value of its setter's type, and the blend mode getter returns a name that decodes to the stored mode |
| Bloom.AssignFailsOnlyOnInvalidBlendMode | package/cpp/core/RNFBloomOptionsWrapper.h:108-110 | a setter fails if and only if it is the blend mode setter given a string other than "ADD"/"INTERPOLATE", and then the error is the invalid-union error for that string |
| Bloom.SetThenGet | package/cpp/core/RNFBloomOptionsWrapper.h:89-164 | for every property, after a successful set the getter returns the value set, and each of the other 16 getters returns what it returned before |
| Bloom.SetWhatWasGot | package/cpp/core/RNFBloomOptionsWrapper.h:89-164 | setting any property to what its getter returns succeeds and leaves the options unchanged |
| Bloom.GettersDetermineOptions | package/cpp/core/RNFBloomOptionsWrapper.h:89-164 | two option values on which all 17 getters agree are equal, so the getters observe every field |
| Bloom.BloomOptionsWrapper.constructor | package/cpp/core/RNFBloomOptionsWrapper.h:16-17 | the wrapper holds a copy of every field of the given options (the default constructor is this one given Filament's default options) |
| Bloom.BloomOptionsWrapper.GetEnabled | package/cpp/core/RNFBloomOptionsWrapper.h:89 | returns the `enabled` getter's value, the stored field |
| Bloom.BloomOptionsWrapper.SetEnabled | package/cpp/core/RNFBloomOptionsWrapper.h:90 | the new state is the old one with only `enabled` replaced by the value |
| Bloom.BloomOptionsWrapper.GetLevels | package/cpp/core/RNFBloomOptionsWrapper.h:93 | returns the `levels` getter's value, the stored field |
| Bloom.BloomOptionsWrapper.SetLevels | package/cpp/core/RNFBloomOptionsWrapper.h:94 | the new state is the old one with only `levels` replaced by the value |
| Bloom.BloomOptionsWrapper.GetResolution | package/cpp/core/RNFBloomOptionsWrapper.h:97 | returns the `resolution` getter's value, the stored field |
| Bloom.BloomOptionsWrapper.SetResolution | package/cpp/core/RNFBloomOptionsWrapper.h:98 | the new state is the old one with only `resolution` replaced by the value |
| Bloom.BloomOptionsWrapper.GetStrength | package/cpp/core/RNFBloomOptionsWrapper.h:101 | returns the `strength` getter's value, the stored field |
| Bloom.BloomOptionsWrapper.SetStrength | package/cpp/core/RNFBloomOptionsWrapper.h:102 | the new state is the old one with only `strength` replaced by the value |
| Bloom.BloomOptionsWrapper.GetBlendMode | package/cpp/core/RNFBloomOptionsWrapper.h:105-107 | returns the blend mode getter's value, a name that decodes back to the stored mode |
| Bloom.BloomOptionsWrapper.SetBlendMode | package/cpp/core/RNFBloomOptionsWrapper.h:108-110 | succeeds if and only if the string is "ADD" or "INTERPOLATE", and then the new state is the old one with only the blend mode replaced; otherwise it throws the invalid-union error and no field changes |
| Bloom.BloomOptionsWrapper.GetThreshold | package/cpp/core/RNFBloomOptionsWrapper.h:113 | returns the `threshold` getter's value, the stored field |
| Bloom.BloomOptionsWrapper.SetThreshold | package/cpp/core/RNFBloomOptionsWrapper.h:114 | the new state is the old one with only `threshold` replaced by the value |
| Bloom.BloomOptionsWrapper.GetHighlight | package/cpp/core/RNFBloomOptionsWrapper.h:117 | returns the `highlight` getter's value, the stored field |
| Bloom.BloomOptionsWrapper.SetHighlight | package/cpp/core/RNFBloomOptionsWrapper.h:118 | the new state is the old one with only `highlight` replaced by the value |
| Bloom.BloomOptionsWrapper.GetQuality | package/cpp/core/RNFBloomOptionsWrapper.h:121-125 | returns the quality getter's value (the stored level) |
| Bloom.BloomOptionsWrapper.SetQuality | package/cpp/core/RNFBloomOptionsWrapper.h:126-128 | the new state is the old one with only the quality level replaced |
| Bloom.BloomOptionsWrapper.GetLensFlare | package/cpp/core/RNFBloomOptionsWrapper.h:131 | returns the `lensFlare` getter's value, the stored field |
| Bloom.BloomOptionsWrapper.SetLensFlare | package/cpp/core/RNFBloomOptionsWrapper.h:132 | the new state is the old one with only `lensFlare` replaced by the value |
| Bloom.BloomOptionsWrapper.GetStarburst | package/cpp/core/RNFBloomOptionsWrapper.h:135 | returns the `starburst` getter's value, the stored field |
| Bloom.BloomOptionsWrapper.SetStarburst | package/cpp/core/RNFBloomOptionsWrapper.h:136 | the new state is the old one with only `starburst` replaced by the value |
| Bloom.BloomOptionsWrapper.GetChromaticAberration | package/cpp/core/RNFBloomOptionsWrapper.h:139 | returns the `chromaticAberration` getter's value, the stored field |
| Bloom.BloomOptionsWrapper.SetChromaticAberration | package/cpp/core/RNFBloomOptionsWrapper.h:140 | the new state is the old one with only `chromaticAberration` replaced by the value |
| Bloom.BloomOptionsWrapper.GetGhostCount | package/cpp/core/RNFBloomOptionsWrapper.h:143 | returns the `ghostCount` getter's value, the stored field |
| Bloom.BloomOptionsWrapper.SetGhostCount | package/cpp/core/RNFBloomOptionsWrapper.h:144 | the new state is the old one with only `ghostCount` replaced by the value |
| Bloom.BloomOptionsWrapper.GetGhostSpacing | package/cpp/core/RNFBloomOptionsWrapper.h:147 | returns the `ghostSpacing` getter's value, the stored field |
| Bloom.BloomOptionsWrapper.SetGhostSpacing | package/cpp/core/RNFBloomOptionsWrapper.h:148 | the new state is the old one with only `ghostSpacing` replaced by the value |
| Bloom.BloomOptionsWrapper.GetGhostThreshold | package/cpp/core/RNFBloomOptionsWrapper.h:151 | returns the `ghostThreshold` getter's value, the stored field |
| Bloom.BloomOptionsWrapper.SetGhostThreshold | package/cpp/core/RNFBloomOptionsWrapper.h:152 | the new state is the old one with only `ghostThreshold` replaced by the value |
| Bloom.BloomOptionsWrapper.GetHaloThickness | package/cpp/core/RNFBloomOptionsWrapper.h:155 | returns the `haloThickness` getter's value, the stored field |
| Bloom.BloomOptionsWrapper.SetHaloThickness | package/cpp/core/RNFBloomOptionsWrapper.h:156 | the new state is the old one with only `haloThickness` replaced by the value |
| Bloom.BloomOptionsWrapper.GetHaloRadius | package/cpp/core/RNFBloomOptionsWrapper.h:159 | returns the `haloRadius` getter's value, the stored field |
| Bloom.BloomOptionsWrapper.SetHaloRadius | package/cpp/core/RNFBloomOptionsWrapper.h:160 | the new state is the old one with only `haloRadius` replaced by the value |
| Bloom.BloomOptionsWrapper.GetHaloThreshold | package/cpp/core/RNFBloomOptionsWrapper.h:163 | returns the `haloThreshold` getter's value, the stored field |
| Bloom.BloomOptionsWrapper.SetHaloThreshold | package/cpp/core/RNFBloomOptionsWrapper.h:164 | the new state is the old one with only `haloThreshold` replaced by the value |
| Matrices.Pack | package/cpp/core/RNFCameraWrapper.cpp:52-57 | of 16 numbers, column c row r of the matrix is entry 4c+r |
| Matrices.Unpack | package/cpp/core/RNFCameraWrapper.cpp:76-82 | 16 numbers whose entry 4c+r is column c row r of the matrix |
| Matrices.UnpackPack | package/cpp/core/RNFCameraWrapper.cpp:52-57 | unpacking a packed 16-element array gives the array back |
| Matrices.PackUnpack | package/cpp/core/RNFCameraWrapper.cpp:76-82 | packing an unpacked matrix gives the matrix back |
| Matrices.PackInjective | package/cpp/core/RNFCameraWrapper.cpp:52-57 | different 16-element arrays pack to different matrices |
| Cameras.Float3Of | package/cpp/core/RNFCameraWrapper.cpp:29-31 | the vector is made of entries 0, 1 and 2 of the array |
| Cameras.Float3OfReadsOnlyThree | package/cpp/core/RNFCameraWrapper.cpp:29-31 | two arrays give the same vector if and only if their first three entries agree |
| Cameras.Camera.constructor | package/cpp/core/RNFCameraWrapper.h:15 | the engine camera holds the given model matrix and projection, and the engine's look-at computation and model-matrix storage |
| Cameras.Manipulator.constructor | package/cpp/core/RNFCameraWrapper.cpp:23 | the manipulator reports the given eye, center and up |
| Cameras.CameraWrapper.constructor | package/cpp/core/RNFCameraWrapper.h:17 | the wrapper refers to the given camera |
| Cameras.CameraWrapper.LookAtCameraManipulator | package/cpp/core/RNFCameraWrapper.cpp:18-26 | fails if and only if the manipulator is null, with invalid-argument "CameraManipulator is null" and the camera unchanged; otherwise the camera is aimed by the manipulator's eye, center and up; the projection never changes |
| Cameras.CameraWrapper.LookAt | package/cpp/core/RNFCameraWrapper.cpp:28-33 | for arrays of at least three entries, the camera is aimed by the vectors made of entries 0..2 of each; the projection does not change |
| Cameras.CameraWrapper.SetLensProjection | package/cpp/core/RNFCameraWrapper.cpp:35-37 | the camera gets the lens projection with exactly the arguments given; the model matrix does not change |
| Cameras.CameraWrapper.SetProjection | package/cpp/core/RNFCameraWrapper.cpp:39-46 | the camera gets the field-of-view projection with exactly the arguments given; the model matrix does not change |
| Cameras.CameraWrapper.SetModelMatrix | package/cpp/core/RNFCameraWrapper.cpp:48-59 | fails if and only if the length is not 16, with the fixed runtime error and the camera unchanged; otherwise the engine is handed the matrix packed column-major from the array and keeps what its storage makes of it; the projection does not change |
| Cameras.CameraWrapper.SetCustomProjection | package/cpp/core/RNFCameraWrapper.cpp:61-72 | fails if and only if the length is not 16, with the fixed runtime error and the camera unchanged; otherwise the projection is the packed matrix with near and far passed on unchanged; the model matrix does not change |
| Cameras.CameraWrapper.GetModelMatrix | package/cpp/core/RNFCameraWrapper.cpp:74-84 | returns exactly 16 numbers whose entry 4c+r is column c row r of the camera's model matrix, and which pack back to that matrix |

## Left out

- Filament itself: what the engine computes in `lookAt`, `setLensProjection`, `setProjection` and `setCustomProjection`. The camera is modelled only by the state the wrapper hands it. The matrix the engine derives from eye, center and up is a function given to the `Camera` constructor.
- Nothing states that `getModelMatrix` returns what `setModelMatrix` was given. The engine's storage and transform composition are not visible: what the engine keeps of a matrix it is handed is a function given to the `Camera` constructor, and only the local `Pack`/`Unpack` inverse is proved.
- Float narrowing: the `static_cast<float>` in `lookAt` and the projection setters, and the float-typed bloom fields, are not modelled. Values are reals and pass through unchanged.
- Integer widths of the `BloomOptions` fields belong to Filament and are not shown, so possible truncation in `setLevels`, `setResolution` and `setGhostCount` is not modelled.
- Bloom.BloomOptionsWrapper.GetQuality: the getter returns a string made by `EnumMapper::convertEnumToJSUnion`. That mapping is not shown, so the model returns the stored quality level instead of its string.
- Bloom.BloomOptionsWrapper.SetQuality: the setter converts a string with `EnumMapper::convertJSUnionToEnum`, which is not shown. The model takes the converted level, so the conversion's failure for an unknown string is not modelled.
- Cameras.CameraWrapper.SetProjection: the direction string, `"vertical"` by default, is converted by `EnumMapper` into `Camera::Fov`, which is not shown. The model takes the converted direction, so an unknown string is not refused.
- Cameras.CameraWrapper.LookAt: the source does not check the array lengths; reading past the end is undefined behaviour in C++. The model requires at least three entries in each array.
- The `invalidEnum` branch of `blendModeToString`: the model's `BlendMode` has only the two named values, so that branch cannot be reached.
- Filament's default bloom options are not shown. The default constructor is modelled as the copying constructor applied to those defaults.
- The hybrid-object machinery is not modelled: JSI marshalling, type conversion of host values, and `shared_ptr` lifetimes. `getEntity` and the `VertexEntity` carrier struct only pass engine handles along, so they are not modelled either.
- The TypeScript camera interface documents preconditions such as near > 0 and far > near. The wrapper never checks them, and the model does not enforce them.
