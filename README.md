# complex_logic, modelled in Dafny

The repository is a pair of PHP sample files for a static-analysis rule set.
Nearly everything in them is a deliberately insecure or broken one-liner.
The only computation is `complex_logic(int $x): int`. It appears twice, with
identical bodies, in `php/test.php` and `php/test2.php`. Both files declare
`strict_types=1`.

The function maps an integer to an integer in three regions:

- **Negative input.** Five passes. Even passes increment `$x` while it is
  negative, and leave the whole function with `-10` if `$x` equals `-10`.
  Odd passes add the pass number; the `default` branch of their `switch` can
  never run.
- **Zero.** Returns 0.
- **Positive input.** Returns `0 + 1 + ... + (x-1)`.

`Complexity.ComplexLogic` (in `complex_logic.dfy`) is a Dafny method that runs
the same loops, the early return and the `switch` of the PHP code. It is proved
equal to `Complexity.ClosedForm`:

- `-10` for `x <= -10`;
- `4` for `-10 < x < 0`;
- `0` for `x == 0`;
- `x(x-1)/2` for `x > 0`.

The guard of the inner loop passes `-x` as its termination measure. The
`default` branch holds `assert false`, which proves it is dead.

One model stands for both copies, because their bodies are identical.

Integers are PHP's 64-bit `int`. The input is required to lie in
`[PHP_INT_MIN, PHP_INT_MAX]`, which strict typing enforces at the call.
Once the running sum passes `PHP_INT_MAX`, PHP turns it into a float. The `int`
return type then raises a `TypeError` under strict typing. The model returns
`TypeError` exactly then: for every input above 2^32.

## Model

| member | source | states |
|---|---|---|
| Complexity.ComplexLogic | php/test.php:110-142 | for every PHP int input, the outcome of running the loops is the closed form: -10 for x <= -10 (early return out of both loops), 4 for -10 < x < 0, 0 for 0, x(x-1)/2 for x > 0, and a TypeError once the sum leaves the int range; the inner climb terminates with measure -x and the switch's default branch is unreachable |
| Complexity.TriangleClosedForm | php/test2.php:128-133 | the sum 0 + 1 + ... + (n-1) that the positive branch accumulates equals n(n-1)/2 for every n |
| Complexity.PositiveIsSum | php/test.php:134-139 | for x > 0, the closed form returns the accumulated sum 0 + ... + (x-1) when that sum is a PHP int, and a TypeError otherwise |
| Complexity.TriangleMonotone | php/test.php:136-137 | the running sum never decreases as more terms are added, so once it has left the int range (become a float) it stays out |
| Complexity.SumFitsExactly | php/test2.php:130-131 | the sum 0 + ... + (n-1) fits in a 64-bit PHP int if and only if n <= 2^32 |
| Complexity.TypeErrorExactly | php/test2.php:104-136 | the only inputs for which the function fails are those above 2^32, where the sum no longer fits in a 64-bit int and the float return breaks the strict int return type |
| Complexity.ResultBounds | php/test2.php:104-136 | over the whole domain, a returned value is at least -10, and it is negative if and only if it is -10 |
| Complexity.ClosedFormSamples | php/test.php:110-142 | f(0) = 0, f(1) = 0, f(5) = 10, f(-1) = 4, f(-10) = -10, f(-11) = -10 |

## Left out

- Credential helpers (php/test.php:7-23 and their copies): environment reads and constant data.
- SQL query functions: thin wrappers over `mysqli` and a database outside the model.
- Output escaping, XSS and `eval` demos: request input, `echo` output, library escaping and dynamic code execution.
- Exception demos: they only show a caught exception being swallowed or logged, which is I/O.
- `duplicate_one/two/three`, `dead_code`, `bad_unused_variable`, `undefined_access`: they return constants or are deliberately broken, with no behaviour worth stating.
- `weak_compare` and `no_types`: their meaning rests on PHP's loose `==` and mixed-type `+` juggling, which is not modelled.
- The command-line runner blocks at the end of each file: process and output I/O.
- Complexity.ComplexLogic: once the sum has become a PHP float, its (rounded) value is not tracked; the only thing it affects is the TypeError on return, which is modelled.
- Complexity.ComplexLogic: a 64-bit PHP build is assumed (PHP_INT_MAX = 2^63 - 1). On a 32-bit build the TypeError threshold would be lower.
- The equivalence of the two copies of `complex_logic` is not a separate lemma. Their bodies are the same text, so one model stands for both.
