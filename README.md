# mat_vec in Dafny: 4×4 matrices, 3- and 4-vectors, and their printers

This project is a Dafny model of the exact, ring-generic core of the Rust crate
`mat_vec`, a small linear-algebra library for graphics. Every element type `T`
is modelled as Dafny's unbounded `int`. The modelled operations only use `+`,
`-`, `*`, zero/`Default` and one, so the integer instances are exact.

The model covers:

- **`Matrix4x4`** (`Mat4`, `Mat4Mul`, `Mat4MulVec4`):
  - a row-major `[T; 16]`, with element (r, c) at flat index `r * 4 + c`;
  - `from_array`, `get`, `set`, `get_mut` and `Index`;
  - `transpose`, `zero_matrix`, `identity_matrix`, `new_scaling`, `new_uniform_scaling` and `new_translation`;
  - `Default`, `PartialEq` and the simple `Display`;
  - the triple-loop matrix product `Mul`, the in-place `MulAssign`, and the matrix–vector product.
- **`Vector3`** (`Vec3`, `Vec3Ops`, `Vec3ScalarMul`, `Vec3Conv`):
  - constructors, accessors, setters, `Index`/`IndexMut`, `PartialEq` and `Default`;
  - negation, addition and subtraction, with their in-place forms;
  - scalar multiplication and division, cross and dot product, with their operator spellings;
  - conversions.
- **`Vector4`** (`Vec4`, `Vec4Conv`):
  - constructors, including the direction (`new_xyz`, w = 0) and point (`new_translatable`, w = 1) lifts;
  - accessors, setters, checked `Index`/`IndexMut` and `PartialEq`;
  - the lift of a `Vector3` with w = 1.
- **The matrix printers** (`Mat4Format`, `Mat4FormatProps`, `Mat4FormatScenarios`, with `Decimal` and `Text`):
  - `format_uniform_columns` pads every element to one width;
  - `format_align_rows` pads every column to its own width;
  - the element-to-text step is the decimal `to_string` of an integer (`Decimal.IntToString`).

Rust value types (`Copy`/`Clone` structs) are datatypes wrapping a fixed-length
`seq<int>`, with the same layout as the Rust `raw_data` array. A `let mut`
binding that `&mut self` methods update in place is a class (`Matrix4x4Var`,
`Vector3Var`, `Vector4Var`) holding the storage as an `array<int>`. Every Rust
loop is a `method` with a `while`/`for` loop, proved against a specification
function:

| loop | specification function |
|---|---|
| `from_array`, `transpose` | `FromRows`, `Transposed` |
| `mul` | `Product` |
| matrix–vector `mul` | `Transform` |
| `eq` | equality |
| `Display` | `DisplayText` |
| the two formatters | `Layout` over `Cells` and the width functions |

The properties the crate promises are proved as lemmas about those functions.

The formatters write one space after every padded field (`"{:>1$} "`). A row
therefore reads `| -23 325 24 4 |`, with single spaces between columns. The
model follows the code.

## Model

| member | source | states |
|---|---|---|
| Mat4.FromRows | src/matrix4x4/mod.rs:25-33 | element (r, c) of the built matrix is `arr[r][c]` for all r, c < 4 |
| Mat4.FromArray | src/matrix4x4/mod.rs:25-33 | the nested loop yields `FromRows(arr)`, storing `arr[r][c]` at raw index `r*4+c` |
| Mat4.Extensionality | src/matrix4x4/mod.rs:45-47 | matrices that agree on all 16 `get(r, c)` are equal, so the row-major layout is faithful |
| Mat4.Matrix4x4.Get | src/matrix4x4/mod.rs:45-47 | `get(row, column)` reads flat index `row * 4 + column`; what that means is stated by `GetReadsRows` and `RowsRoundTrip` |
| Mat4.GetReadsRows | src/matrix4x4/mod.rs:45-47 | `get(row, column)` is entry `column` of row `row` of the `[[T; 4]; 4]` rows; a column of 4 or more runs on into the following rows |
| Mat4.RowsRoundTrip | src/matrix4x4/mod.rs:25-33 | `from_array` and reading the rows back are inverse in both directions |
| Mat4.Matrix4x4.Index | src/matrix4x4/mod.rs:302-304 | `self[(row, column)]` is `get(row, column)`, under the same bound |
| Mat4.Transposed | src/matrix4x4/mod.rs:61-71 | element (c, r) of the transpose is element (r, c) of the original |
| Mat4.Transpose | src/matrix4x4/mod.rs:61-71 | the column-outer/row-inner loop returns `Transposed(m)`; the receiver is only read |
| Mat4.TransposeInvolutive | src/matrix4x4/mod.rs:61-71 | transposing twice gives back the original |
| Mat4.ZeroMatrix | src/matrix4x4/mod.rs:82-86 | all 16 elements are zero |
| Mat4.Default | src/matrix4x4/mod.rs:327-336 | `default()` is the zero matrix |
| Mat4.Identity | src/matrix4x4/mod.rs:114-120 | 1 on the diagonal and 0 elsewhere |
| Mat4.Scaling | src/matrix4x4/mod.rs:93-100 | diag(sx, sy, sz, 1), with every off-diagonal element 0 |
| Mat4.Translation | src/matrix4x4/mod.rs:106-112 | the identity except that (0,3), (1,3), (2,3) hold tx, ty, tz |
| Mat4.Matrix4x4Var.constructor | src/matrix4x4/mod.rs:18 | a fresh mutable binding that holds the given matrix |
| Mat4.Matrix4x4Var.Set | src/matrix4x4/mod.rs:41-43 | after `set(row, column, v)`, `get(row, column) == v` and every other element keeps its old value |
| Mat4.Matrix4x4Var.Assign | src/matrix4x4/mul.rs:53 | `*self = m` replaces the whole value |
| Mat4.IdentityMatrix | src/matrix4x4/mod.rs:114-120 | setting (i, i) to one for i = 0..3 on the zero matrix yields `Identity()` |
| Mat4.NewScaling | src/matrix4x4/mod.rs:93-100 | the four `set` calls on the zero matrix yield `Scaling(sx, sy, sz)` |
| Mat4.NewUniformScaling | src/matrix4x4/mod.rs:102-104 | `new_uniform_scaling(s) == new_scaling(s, s, s)` |
| Mat4.NewTranslation | src/matrix4x4/mod.rs:106-112 | the three `set` calls on the identity yield `Translation(tx, ty, tz)` |
| Mat4.Equals | src/matrix4x4/mod.rs:342-351 | the early-return loop answers true exactly when all 16 element pairs are equal |
| Mat4.Display | src/matrix4x4/mod.rs:311-324 | the loop writes `DisplayText(m, 4)`: a newline, then per row the four element texts separated by commas, framed and ended by a line break |
| Mat4.DisplayRowIsOneLine | src/matrix4x4/mod.rs:314-321 | each row line holds exactly one line break, the one that ends it |
| Mat4.DisplayLineCount | src/matrix4x4/mod.rs:311-324 | after n rows the text holds n + 1 line breaks |
| Mat4.DisplayIsRows | src/matrix4x4/mod.rs:311-324 | the display is the empty line, then rows 0..3 in order, with 5 line breaks in all |
| Mat4Mul.Product | src/matrix4x4/mul.rs:14-23 | element (r, c) is `a(r,0)·b(0,c) + a(r,1)·b(1,c) + a(r,2)·b(2,c) + a(r,3)·b(3,c)` |
| Mat4Mul.Mul | src/matrix4x4/mul.rs:14-23 | the triple loop, accumulating from 0 in order i = 0..3, returns `Product(a, b)`; the operands are values and are not changed |
| Mat4Mul.MulAssign | src/matrix4x4/mul.rs:44-54 | after `a *= b`, a holds the old a times b; the product is computed from the old a |
| Mat4Mul.IdentityIsUnit | src/matrix4x4/mul.rs:14-23 | `identity * a == a` and `a * identity == a` |
| Mat4Mul.ZeroAnnihilates | src/matrix4x4/mul.rs:14-23 | a product with the zero matrix on either side is zero |
| Mat4Mul.TransposeOfProduct | src/matrix4x4/mul.rs:14-23 | `(a·b)ᵀ == bᵀ·aᵀ` |
| Mat4Mul.TranslationsCompose | src/matrix4x4/mod.rs:106-112 | the product of two translations is the translation by the summed offsets |
| Mat4MulVec4.Transform | src/matrix4x4/mul_vec4.rs:10-18 | component r of `m * v` is `Σ_c m(r,c)·v[c]` |
| Mat4MulVec4.MulVec | src/matrix4x4/mul_vec4.rs:10-18 | the double loop, accumulating from 0, returns `Transform(m, v)`; owned and borrowed forms share the body |
| Mat4MulVec4.VectorExtensionality | src/vector4/mod.rs:37-48 | vectors equal on x, y, z, w are equal |
| Mat4MulVec4.IdentityFixes | src/matrix4x4/mul_vec4.rs:10-18 | `identity * v == v` |
| Mat4MulVec4.TranslationMovesPoints | src/vector4/mod.rs:101-106 | `translation(t) * new_translatable(x, y, z) == new_translatable(x+tx, y+ty, z+tz)` |
| Mat4MulVec4.TranslationFixesDirections | src/vector4/mod.rs:90-94 | `translation(t) * new_xyz(x, y, z) == new_xyz(x, y, z)` |
| Mat4MulVec4.ScalingScales | src/matrix4x4/mod.rs:93-100 | a scaling multiplies x, y, z by its factors and keeps w |
| Mat4MulVec4.ProductTransforms | src/matrix4x4/mul_vec4.rs:10-18 | `(a·b)·v == a·(b·v)` |
| Mat4Scenarios.ProductScenarioSparse | src/tests/mat4x4.rs:7-25 | the sparse product equals its expected matrix |
| Mat4Scenarios.ProductScenarioPositive | src/tests/mat4x4.rs:26-44 | the dense non-negative product equals its expected matrix |
| Mat4Scenarios.ProductScenarioSigned | src/tests/mat4x4.rs:45-63 | the product with negative entries equals its expected matrix |
| Mat4Scenarios.TransformScenarioDirection | src/tests/mat4x4.rs:68-76 | the test matrix times `new_xyz(9, 3, 4)` is `[74, 105, 96, 0]` |
| Mat4Scenarios.TransformScenarioPoint | src/tests/mat4x4.rs:77-79 | the test matrix times `(4, 8, 3, 1)` is `[76, 71, 70, 1]` |
| Decimal.IntToString | src/matrix4x4/format.rs:25 | `to_string` of an integer is never empty |
| Decimal.IntToStringShape | src/matrix4x4/format.rs:25 | the text starts with '-' exactly for negative numbers, the rest is digits, and it never starts with a space |
| Decimal.TextSingleLine | src/matrix4x4/format.rs:25 | an element text holds no line break |
| Decimal.IntToStringRoundTrip | src/matrix4x4/format.rs:25 | parsing the text gives the number back |
| Decimal.IntToStringInjective | src/matrix4x4/format.rs:25 | two numbers print alike exactly when they are equal |
| Decimal.ToString | src/matrix4x4/format.rs:25 | the digit loop, least significant digit first and the sign last, writes exactly `IntToString(n)` |
| Text.TrimStart | src/matrix4x4/format.rs:38 | stripping leading spaces leaves a suffix that does not start with a space |
| Text.TrimStartOfPadded | src/matrix4x4/format.rs:38 | stripping the fill off spaces-then-text gives the text back |
| Mat4Format.Cells | src/matrix4x4/format.rs:20-33 | the buffers: a 4×4 grid whose (r, c) entry is the `to_string` of element (r, c) |
| Mat4Format.PadLeft | src/matrix4x4/format.rs:38 | `{:>w$}` is spaces followed by the text, as wide as the larger of w and the text; it never truncates |
| Mat4Format.MaxLenBound | src/matrix4x4/format.rs:21-33 | the running `max_len` bounds every element length seen so far |
| Mat4Format.MaxLenAttained | src/matrix4x4/format.rs:21-33 | the running `max_len` is the length of one of the elements seen so far |
| Mat4Format.UniformWidth | src/matrix4x4/format.rs:21-33 | the uniform width is the largest of the 16 element lengths: it bounds all, and one attains it |
| Mat4Format.ColumnWidthBound | src/matrix4x4/format.rs:47-58 | `columns_max_lengths[c]` bounds the length of column c's elements in the rows seen so far |
| Mat4Format.ColumnWidthAttained | src/matrix4x4/format.rs:47-58 | `columns_max_lengths[c]` is the length of one of column c's elements seen so far |
| Mat4Format.ColumnWidths | src/matrix4x4/format.rs:47-58 | the four column widths, each the maximum over its column's rows |
| Mat4Format.WriteRows | src/matrix4x4/format.rs:34-42 | the writing loop produces `Layout`: per row an opening frame, four padded fields each followed by a space, then a closing frame and a line break |
| Mat4Format.CollectRowUniform | src/matrix4x4/format.rs:23-32 | one pass of the inner loop buffers row r's texts and raises `max_len` to the maximum over the rows so far |
| Mat4Format.FormatUniformColumns | src/matrix4x4/format.rs:19-43 | `format_uniform_columns` returns the layout of the element texts with every width equal to the uniform width |
| Mat4Format.CollectRowAligned | src/matrix4x4/format.rs:49-57 | one pass buffers row r's texts and raises each `columns_max_lengths[c]` to the maximum over rows 0..r |
| Mat4Format.FormatAlignRows | src/matrix4x4/format.rs:45-73 | `format_align_rows` returns the layout of the element texts with column c padded to its column width |
| Mat4FormatProps.LayoutIsLines | src/matrix4x4/format.rs:35-41 | the output is line 0 to line 3, in row order |
| Mat4FormatProps.LineFields | src/matrix4x4/format.rs:36-40 | a line is the opening frame, the four fields of the row in column order, then the closing frame and a line break |
| Mat4FormatProps.LineFramed | src/matrix4x4/format.rs:36-40 | every line starts with a bar and a space and ends with a bar and a line break |
| Mat4FormatProps.LayoutLineCount | src/matrix4x4/format.rs:34-42 | after n rows the output holds exactly n line breaks |
| Mat4FormatProps.PrintsFourLines | src/matrix4x4/format.rs:34-42 | both formatters print exactly four lines |
| Mat4FormatProps.FieldLength | src/matrix4x4/format.rs:38 | a field whose text fits its width is exactly width + 1 characters |
| Mat4FormatProps.LineLength | src/matrix4x4/format.rs:35-41 | a line whose widths cover its texts is the sum of the widths + 8 characters long |
| Mat4FormatProps.UniformCovers | src/matrix4x4/format.rs:21-33 | the uniform width covers every element text |
| Mat4FormatProps.ColumnWidthsAreMaxima | src/matrix4x4/format.rs:47-58 | each column width covers its column's texts and equals one of them |
| Mat4FormatProps.UniformLineLength | src/matrix4x4/format.rs:38 | every uniform line has length `2 + 4*(max_len + 1) + 2` |
| Mat4FormatProps.AlignedLineLength | src/matrix4x4/format.rs:64-68 | every aligned line has the same length, the sum of the column widths + 8 |
| Mat4FormatProps.ColumnsWithinUniform | src/matrix4x4/format.rs:26-29 | every column width is at most the uniform width, and one of them equals it |
| Mat4FormatProps.EqualColumnsAreUniform | src/matrix4x4/format.rs:52-55 | the column widths are all the uniform width exactly when the four column widths are equal |
| Mat4FormatProps.SameLengthEqualColumns | src/matrix4x4/format.rs:45-73 | if the two outputs have the same length, the column widths are all the uniform width |
| Mat4FormatProps.UniformTextLength | src/matrix4x4/format.rs:19-43 | the uniform output is `4 * (4*max_len + 8)` characters long |
| Mat4FormatProps.AlignedTextLength | src/matrix4x4/format.rs:45-73 | the aligned output is four times the sum of the column widths + 8 characters long |
| Mat4FormatProps.PrintersAgree | src/matrix4x4/format.rs:19-73 | the two formatters print the same text exactly when all column widths equal the uniform width |
| Mat4FormatProps.FieldRecoversElement | src/matrix4x4/format.rs:38 | stripping the leading padding from a field gives back the element's `to_string` |
| Mat4FormatScenarios.SampleWidths | src/matrix4x4/format.rs:21-33 | for the sample matrix the column widths are [3, 3, 2, 1] and the uniform width is 3 |
| Mat4FormatScenarios.SampleAligned | src/matrix4x4/format.rs:45-73 | the aligned text of the sample matrix, line by line |
| Mat4FormatScenarios.SampleUniform | src/matrix4x4/format.rs:19-43 | the uniform text of the sample matrix, line by line |
| Vec3.Vector3.Index | src/vector3/mod.rs:79-81 | `v[i]` for i < 3 is component i |
| Vec3.Vector3.X | src/vector3/mod.rs:38-40 | `x()` reads slot 0; `Index`, `New` and `GetComponents` state it in their contracts |
| Vec3.Vector3.Y | src/vector3/mod.rs:41-43 | `y()` reads slot 1; `Index`, `New` and `GetComponents` state it in their contracts |
| Vec3.Vector3.Z | src/vector3/mod.rs:44-46 | `z()` reads slot 2; `Index`, `New` and `GetComponents` state it in their contracts |
| Vec3.Vector3.GetComponents | src/vector3/mod.rs:48-50 | `get_components()` is `(x(), y(), z())` and rebuilds the same vector |
| Vec3.New | src/vector3/mod.rs:20-24 | `x()`, `y()`, `z()` of `new(x, y, z)` are x, y, z |
| Vec3.FromArray | src/vector3/mod.rs:28-30 | `from_array([x, y, z]) == new(x, y, z)` |
| Vec3.FromTuple | src/vector3/mod.rs:32-36 | `from_tuple((x, y, z)) == new(x, y, z)`, and `get_components` gives the tuple back |
| Vec3.Default | src/vector3/mod.rs:137-146 | every component of `default()` is 0 |
| Vec3.Equals | src/vector3/mod.rs:97-104 | the early-return loop answers true exactly when the three components are pairwise equal |
| Vec3.Vector3Var.constructor | src/vector3/mod.rs:20-24 | a fresh mutable binding that holds the given vector |
| Vec3.Vector3Var.SetX | src/vector3/mod.rs:52-54 | `set_x` changes x only |
| Vec3.Vector3Var.SetY | src/vector3/mod.rs:55-57 | `set_y` changes y only |
| Vec3.Vector3Var.SetZ | src/vector3/mod.rs:58-60 | `set_z` changes z only |
| Vec3.Vector3Var.IndexSet | src/vector3/mod.rs:88-90 | `v[i] = value` (i < 3) writes component i and no other |
| Vec3Ops.Neg | src/vector3/ops.rs:35-40 | `-v` negates every component |
| Vec3Ops.Add | src/vector3/ops.rs:49-53 | `a + b` is componentwise |
| Vec3Ops.Sub | src/vector3/ops.rs:62-66 | `a - b` is componentwise |
| Vec3Ops.NegInvolutive | src/vector3/ops.rs:35-40 | `-(-v) == v` |
| Vec3Ops.SubIsAddNeg | src/vector3/ops.rs:49-66 | `a - b == a + (-b)`, `(a + b) - b == a` and `a + b == b + a` |
| Vec3Ops.AddAssign | src/vector3/ops.rs:73-77 | after `a += b`, a holds the old `a + b` |
| Vec3Ops.SubAssign | src/vector3/ops.rs:84-88 | after `a -= b`, a holds the old `a - b` |
| Vec3Ops.CrossProduct | src/vector3/ops.rs:171-177 | the cross product is orthogonal to both operands: `a·(a×b) == 0` and `b·(a×b) == 0` |
| Vec3Ops.DotProduct | src/vector3/ops.rs:195-199 | the sum of the products of matching components, never negative for a vector with itself; symmetric by `DotSymmetric` |
| Vec3Ops.BitXor | src/vector3/ops.rs:186-188 | `a ^ b` has the cross-product components; `OperatorAliases` shows it is `cross_product` |
| Vec3Ops.Rem | src/vector3/ops.rs:208-210 | `a % b` is the sum of the component products; `OperatorAliases` shows it is `dot_product` |
| Vec3Ops.OperatorAliases | src/vector3/ops.rs:186-188 | `a ^ b` is the cross product and `a % b` the dot product |
| Vec3Ops.CrossAntiCommutes | src/vector3/ops.rs:171-177 | `a×b == -(b×a)` |
| Vec3Ops.DotSymmetric | src/vector3/ops.rs:195-199 | `a·b == b·a` |
| Vec3ScalarMul.MulScalar | src/vector3/scalar_mul.rs:12-16 | `v * s` multiplies every component by s |
| Vec3ScalarMul.ScalarMul | src/vector3/scalar_mul.rs:58-60 | `s * v` multiplies every component by s from the left, and equals `v * s` |
| Vec3ScalarMul.MulAssign | src/vector3/scalar_mul.rs:85-87 | after `v *= s`, v holds the old `v * s` |
| Vec3ScalarMul.DivScalar | src/vector3/scalar_mul.rs:123-127 | `v / s` divides every component by s, truncating toward zero; s = 0 panics |
| Vec3ScalarMul.TruncDiv | src/vector3/scalar_mul.rs:123-127 | integer `/` (s ≠ 0): the remainder is smaller than the divisor in magnitude and is zero or has the sign of the dividend |
| Vec3ScalarMul.TruncDivUnique | src/vector3/scalar_mul.rs:123-127 | that remainder condition determines the quotient: any quotient meeting it is `TruncDiv` |
| Vec3ScalarMul.TruncDivExact | src/vector3/scalar_mul.rs:123-127 | integer division is exact on multiples |
| Vec3ScalarMul.DivUndoesMul | src/vector3/scalar_mul.rs:123-127 | `(v * s) / s == v` for s ≠ 0 |
| Vec3ScalarMul.TruncDivRoundsTowardZero | src/vector3/scalar_mul.rs:123-127 | −7 / 2 is −3, not the Euclidean −4 |
| Vec3ScalarMul.MulDistributes | src/vector3/scalar_mul.rs:12-16 | `(v + w) * s == v*s + w*s` and `v * (a + b) == v*a + v*b` |
| Vec3ScalarMul.MulScalarCompose | src/vector3/scalar_mul.rs:12-16 | `(v * a) * b == v * (a·b)`, `v * 1 == v` and `v * -1 == -v` |
| Vec3Conv.ConvertComponents | src/vector3/conv.rs:3-13 | the primitive conversion applies the same cast to each component independently |
| Vec3Conv.ConvertComponentsCompose | src/vector3/conv.rs:3-13 | converting twice is converting by the composed cast; a value-keeping cast keeps the vector |
| Vec3Conv.FromVector4 | src/vector3/conv.rs:55-59 | `Vector3::from(Vector4)` keeps x, y, z |
| Vec3Conv.FromVector4IgnoresW | src/vector3/conv.rs:55-59 | two `Vector4`s project to the same `Vector3` exactly when x, y, z agree, so w is dropped |
| Vec3Conv.ConversionScenarios | src/tests/conversions.rs:10-25 | (2, 1, 7) converts componentwise; `new_translatable(2, -1, 7)` projects to (2, -1, 7) |
| Vec4.Vector4.Index | src/vector4/mod.rs:115-123 | `v[i]` for i ≤ 3 is component i; a larger index panics |
| Vec4.Vector4.X | src/vector4/mod.rs:37-39 | `x()` reads slot 0; `Index`, `New` and `GetComponents` state it in their contracts |
| Vec4.Vector4.Y | src/vector4/mod.rs:40-42 | `y()` reads slot 1; `Index`, `New` and `GetComponents` state it in their contracts |
| Vec4.Vector4.Z | src/vector4/mod.rs:43-45 | `z()` reads slot 2; `Index`, `New` and `GetComponents` state it in their contracts |
| Vec4.Vector4.W | src/vector4/mod.rs:46-48 | `w()` reads slot 3; `Index`, `New` and `GetComponents` state it in their contracts |
| Vec4.Vector4.GetComponents | src/vector4/mod.rs:50-57 | `get_components()` is `(x, y, z, w)` and rebuilds the same vector |
| Vec4.New | src/vector4/mod.rs:20-24 | the accessors of `new(x, y, z, w)` give x, y, z, w |
| Vec4.FromArray | src/vector4/mod.rs:26-28 | `from_array(arr) == new(arr[0], arr[1], arr[2], arr[3])` and `v[i] == arr[i]` |
| Vec4.FromTuple | src/vector4/mod.rs:30-35 | `from_tuple((x, y, z, w)) == new(x, y, z, w)` |
| Vec4.NewXyz | src/vector4/mod.rs:90-94 | `new_xyz(x, y, z) == (x, y, z, 0)` |
| Vec4.NewTranslatable | src/vector4/mod.rs:102-106 | `new_translatable(x, y, z) == (x, y, z, 1)` |
| Vec4.Equals | src/vector4/mod.rs:145-152 | the early-return loop answers true exactly when the four components are pairwise equal |
| Vec4.Vector4Var.constructor | src/vector4/mod.rs:20-24 | a fresh mutable binding that holds the given vector |
| Vec4.Vector4Var.SetX | src/vector4/mod.rs:59-61 | `set_x` changes x only |
| Vec4.Vector4Var.SetY | src/vector4/mod.rs:62-64 | `set_y` changes y only |
| Vec4.Vector4Var.SetZ | src/vector4/mod.rs:65-67 | `set_z` changes z only |
| Vec4.Vector4Var.SetW | src/vector4/mod.rs:68-70 | `set_w` changes w only |
| Vec4.Vector4Var.IndexSet | src/vector4/mod.rs:130-138 | `v[i] = value` (i ≤ 3) writes component i and no other |
| Vec4Conv.FromVector3 | src/vector4/conv.rs:10-19 | `Vector4::from(&Vector3)` keeps x, y, z and sets w to one: a translatable point |
| Vec4Conv.LiftRoundTrip | src/vector4/conv.rs:10-19 | lifting then projecting gives the vector back; projecting then lifting is the identity exactly when w == 1 |
| Vec4Conv.DirectionRoundTrip | src/vector3/conv.rs:55-59 | a direction built by `new_xyz` projects back to its x, y, z |

## Left out

- The float constructors are not modelled: the rotations, projections and `new_LookAt_matrix` (src/matrix4x4/mod.rs:123-294). They rely on trigonometry and float division.
- The float vector operations are not modelled: `normalize`/`Not`, `length`, `length_as_f32`/`length_as_f64`, and `normalize_3_elements`. They are `sqrt`-based floating-point numerics.
- The float tests are not modelled: the float product test and the float conversion cases in the test files.
- The float-tolerance helper `AlmostEq` and the debug bit printers in `misc.rs` are outside the modelled library.
- Matrix addition (`mod add`) is not part of this model. Its file is not available.
- `as_ptr`, `get_raw_data`, `size_of_raw_value` and `size_of_raw_data` are not modelled. They expose raw pointers and memory sizes.
- Integer overflow is not modelled. Element arithmetic is on unbounded `int`, so an overflowing `i32` product, which panics in debug builds and wraps in release builds, has no counterpart.
- The cross-type instances (`impl_scalar_mul!`, `impl_scalar_mul_vec!`, `impl_mul_assign!`, `impl_scalar_div!`, `impl_primitive_conv!`) are modelled with every element type as `int`:
  - an `as` cast between element types is the identity;
  - `Vec3Conv.ConvertComponents` takes the cast as a parameter instead.
  - Float rounding and saturating float-to-integer casts are not captured.
- The duplicated scalar-multiplication impls in `ops.rs` are not modelled separately. They have the same bodies as the ones in `scalar_mul.rs`.
- Owned and borrowed receivers of `Mul` and `MulAssign` coincide in the model: every operand is a value. Aliasing between `self` and `rhs` cannot arise, because the product is computed into a fresh array before `*self` is written.
- `get_mut`, `x_mut` … `w_mut` return a mutable reference, which has no Dafny counterpart. Each is modelled as the write made through it (`Matrix4x4Var.Set`, `IndexSet`).
- The `Display` of integers and Rust's `Formatter` are not modelled; `Decimal.IntToString` stands for the integer's `to_string`. A failing write into the output `String` cannot happen and is not modelled.
- Mat4.Matrix4x4.Get: requires only `row * 4 + column < 16`, as the code indexes the flat array directly. `get(0, 5)` reads element (1, 1) instead of panicking, so r, c < 4 is not demanded (`GetReadsRows` states where such a read lands).
- Vec4.Vector4.Index: requires `index <= 3`, for both the debug-build panic and the array bound of release builds. The panic message is not modelled.
