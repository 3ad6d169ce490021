# Portfolio site: the logic inside the UI

This project is a Dafny model of the few pieces of real, statable logic inside a React portfolio website. The rest of the site is markup. The model covers:

- **Theme store.** A module-level table of five themes, plus the provider's current-index cell. Cycling moves through the table modulo 5. Toggling dark mode, toggling cyberpunk mode and setting a cursor style all write into the shared table in place, so a change made to one theme survives cycling away from it.
- **Cursor-style registry.** A map from four names to styles. `setStyle` switches to a registered style and ignores unknown names.
- **Target mini-game.**
  - Targets get ids from a counter that is never reset.
  - A click marks one target as hit; a sweep removes the hit targets.
  - The score grows by 100 per hit, and the high score never decreases.
- **Skills page.** The distinct categories in first-seen order, and a per-category filter that together shows every skill exactly once.
- **Glitch text.** An intensity table and a per-character scrambler.
- **Canvas effects: the pool bookkeeping behind each drawing.**
  - *Cyber background.* A pool of integer-life particles, updated by a backward loop with `splice`, and a scrolling grid offset.
  - *Interactive background.* Eleven objects, moving and bouncing targets, sparks that fade out, click hit tests, and lasers that, as written, never fade (see Findings).
  - *Cursor trail.* Particles shed on every mouse move and faded every frame.
  - *Particle field.* Sized to the window, with wrap-around, growth near the pointer and two-hex-digit connection alpha.
  - *Scrolling grid.* Offset, line positions and fading.
  - *Professional background.* Fifty drifting dots that wrap vertically and are pushed away from the pointer.

Helper modules:

- `Hex`: JavaScript's `slice`, `parseInt(…, 16)`, `toString(16)` and `padStart`, as far as colours need them.
- `Seqs`: a generic `Filter`/`Map` with their laws.
- `Draws`: draws of `Math.random()` in [0, 1).

**How inputs are handled:**

- **Random draws** are parameters of the operations that use them, required to lie in [0, 1).
- **Results of trigonometry and square roots** are also parameters: launch directions, laser end points and distances to the pointer. A distance `d` is tied to the coordinates by `d·d == dx² + dy²`.
- **Positions, speeds and lifetimes** are exact reals.

**Form of the model:**

- Code that mutates objects in place is modelled by classes with `modifies` clauses:
  - the theme provider;
  - the cursor provider;
  - the game state;
  - `Particle` and the pool of the cyber background;
  - the scene, trail, field, grid and backdrop refs of the canvas components.
- Pure expressions are functions. Each class method is proved against them.

## Model

| member | source | states |
|---|---|---|
| ThemeContext.InitialThemes | src/context/ThemeContext.tsx:42-153 | the theme table has exactly five entries |
| ThemeContext.InitialColorsWellFormed | src/context/ThemeContext.tsx:42-153 | every theme's primary and accent colour is '#' followed by exactly six hex digits |
| ThemeContext.NextIndex | src/context/ThemeContext.tsx:161-163 | the next index stays below 5 and wraps to 0 exactly from the last theme |
| ThemeContext.CycleN | src/context/ThemeContext.tsx:161-163 | any number of cycles keeps the index inside the table |
| ThemeContext.CycleNIsModular | src/context/ThemeContext.tsx:161-163 | n cycles from index i land on (i + n) mod 5 |
| ThemeContext.CycleAroundIsIdentity | src/context/ThemeContext.tsx:161-163 | five cycles return to the starting theme |
| ThemeContext.WithCursorStyle | src/context/ThemeContext.tsx:165-168 | only the chosen theme's cursor style changes; all its other fields and all other themes are untouched |
| ThemeContext.WithDarkToggled | src/context/ThemeContext.tsx:170-173 | exactly one flag (`isDark`) of one theme is negated; everything else is untouched |
| ThemeContext.WithCyberpunkToggled | src/context/ThemeContext.tsx:175-178 | exactly one flag (`isCyberpunk`) of one theme is negated; everything else is untouched |
| ThemeContext.ToggleTwiceIsIdentity | src/context/ThemeContext.tsx:170-178 | toggling either flag twice restores the table |
| ThemeContext.TogglesCommute | src/context/ThemeContext.tsx:170-178 | the two toggles can be applied in either order |
| ThemeContext.NewThemeTable | src/context/ThemeContext.tsx:42-153 | the shared table is allocated holding the five initial themes |
| ThemeContext.InitialPaletteParseable | src/context/ThemeContext.tsx:42-153 | every primary and accent colour of the initial table is '#' and six hex digits |
| ThemeContext.ThemeProvider.constructor | src/context/ThemeContext.tsx:157-158 | the provider starts at index 0 over the shared table, whose names and palettes it keeps from then on |
| ThemeContext.ThemeProvider.Value | src/context/ThemeContext.tsx:180-192 | the exposed theme, colours, cursor style and flags are exactly the fields of the current table entry, and the colours are well formed |
| ThemeContext.ThemeProvider.CycleTheme | src/context/ThemeContext.tsx:161-163 | the index moves to the next one modulo 5; the table is untouched |
| ThemeContext.ThemeProvider.SetCursorStyle | src/context/ThemeContext.tsx:165-168 | the table is updated in place by `WithCursorStyle` at the current index; the index is kept |
| ThemeContext.ThemeProvider.ToggleTheme | src/context/ThemeContext.tsx:170-173 | the table is updated in place by `WithDarkToggled` at the current index; the index is kept |
| ThemeContext.ThemeProvider.ToggleCyberpunk | src/context/ThemeContext.tsx:175-178 | the table is updated in place by `WithCyberpunkToggled` at the current index; the index is kept |
| ThemeContext.UseTheme | src/context/ThemeContext.tsx:199-205 | the hook fails exactly when no provider is present, and otherwise returns the provided value |
| ThemeContext.PersistenceScenario | src/context/ThemeContext.tsx:161-177 | toggling dark mode and cycling five times leaves the provider at the same theme, the table equal to the old table with only that theme's `isDark` negated, and the exposed `isDark` negated from before the toggle |
| CursorContext.Lookup | src/context/CursorContext.tsx:37-81 | a name finds a style exactly when it is one of the registered keys, and the style found carries that name |
| CursorContext.RegistryShape | src/context/CursorContext.tsx:23-38 | the registry holds exactly hex, neural, quantum and matrix, and `hex` is the default style, named 'hex' |
| CursorContext.NextStyle | src/context/CursorContext.tsx:88-93 | a registered name selects its style; an unknown name keeps the current one |
| CursorContext.NextStyleIdempotent | src/context/CursorContext.tsx:88-93 | setting the same name twice is the same as once |
| CursorContext.NextStyleLastWins | src/context/CursorContext.tsx:88-93 | after a registered name is set, the earlier style no longer matters |
| CursorContext.CursorProvider.constructor | src/context/CursorContext.tsx:86 | the provider starts at the default 'hex' style |
| CursorContext.CursorProvider.SetStyle | src/context/CursorContext.tsx:88-93 | the current style becomes `styles[name]` for a registered name and is unchanged otherwise; it is always a registered style |
| CursorContext.UseCursor | src/context/CursorContext.tsx:107-112 | the hook fails exactly when no provider is present |
| TargetGame.MarkHit | src/components/games/TargetGame.tsx:38-41 | length, order, ids and all other fields are kept; a target is hit afterwards iff it was hit before or has the clicked id |
| TargetGame.Unhit | src/components/games/TargetGame.tsx:49 | the filter callback `!target.hit`; its meaning is stated by `TargetGame.Sweep`, which keeps exactly the targets it accepts |
| TargetGame.Sweep | src/components/games/TargetGame.tsx:48-50 | the survivors are unhit targets of the list, and every unhit target survives |
| TargetGame.SweepAfterMarkHit | src/components/games/TargetGame.tsx:38-50 | a click followed by a sweep removes the clicked target and the already-hit ones, keeping the rest in order |
| TargetGame.SweepKeepsIdsIncreasing | src/components/games/TargetGame.tsx:48-50 | sweeping keeps the ids strictly increasing |
| TargetGame.MarkHitTouchesOneTarget | src/components/games/TargetGame.tsx:38-41 | with distinct ids a click newly marks at most one target |
| TargetGame.NewTarget | src/components/games/TargetGame.tsx:27-33 | the new target is unhit, carries the given id, lies inside the container less 50 pixels, and has a size in [30, 50) |
| TargetGame.TargetGameState.constructor | src/components/games/TargetGame.tsx:15-21 | score, high score and counter start at 0 with no targets and the game inactive |
| TargetGame.TargetGameState.SpawnTarget | src/components/games/TargetGame.tsx:23-36 | without a container nothing changes; otherwise one unhit target with the next counter id is appended and the counter advances |
| TargetGame.TargetGameState.HandleTargetClick | src/components/games/TargetGame.tsx:38-43 | the targets are updated by `MarkHit` and the score grows by exactly 100 |
| TargetGame.TargetGameState.OnTargetClick | src/components/games/TargetGame.tsx:112 | clicking an already-hit target changes nothing; otherwise it is a `HandleTargetClick` of that target's id |
| TargetGame.TargetGameState.SweepHits | src/components/games/TargetGame.tsx:48-50 | the targets become `Sweep` of the old list; nothing else changes |
| TargetGame.TargetGameState.UpdateHighScore | src/components/games/TargetGame.tsx:59-63 | the high score becomes the larger of itself and the score |
| TargetGame.TargetGameState.StartGame | src/components/games/TargetGame.tsx:65-69 | the game is active with score 0 and no targets; the id counter and the high score are kept |
| TargetGame.TargetGameState.StopGame | src/components/games/TargetGame.tsx:71-76 | the game is inactive and the high score is at least the score and never decreases |
| Skills.SkillsTable | src/components/Skills.tsx:11-29 | the twelve literal skills; `Skills.LevelsArePercentages` and `Skills.TableCategories` state what the page relies on |
| Skills.LevelsArePercentages | src/components/Skills.tsx:11-29 | every level is in [0, 100], so it is a valid width percentage |
| Skills.FirstIndex | src/components/Skills.tsx:82 | the position of the first occurrence of a value |
| Skills.Distinct | src/components/Skills.tsx:82 | the deduplicated list has no duplicates and the same members as the input |
| Skills.DistinctInFirstSeenOrder | src/components/Skills.tsx:82 | the deduplicated values appear in the order of their first occurrence |
| Skills.CategoryList | src/components/Skills.tsx:82 | the mapped list holds each skill's category at the skill's position |
| Skills.CategoriesCoverSkills | src/components/Skills.tsx:82 | the categories are duplicate free, every skill's category is listed, and every listed category has a skill |
| Skills.Categories | src/components/Skills.tsx:82 | `Array.from(new Set(...))` of the categories; `Skills.CategoriesCoverSkills`, `Skills.DistinctInFirstSeenOrder` and `Skills.TableCategories` state that it lists each category once, in first-seen order |
| Skills.DistinctSnoc | src/components/Skills.tsx:82 | a new value is appended to the deduplicated list exactly when it was not seen before |
| Skills.TableCategories | src/components/Skills.tsx:11-29 | for the table as written the categories are Frontend, Backend, DevOps |
| Skills.DistinctOfTableList | src/components/Skills.tsx:82 | four each of three distinct names deduplicate to those three names in order |
| Skills.DistinctAppendSeen | src/components/Skills.tsx:82 | appending values already seen leaves the deduplicated list unchanged |
| Skills.DistinctAppendRun | src/components/Skills.tsx:82 | a run of four copies of a new value adds that value once |
| Skills.InCategory | src/components/Skills.tsx:123-124 | the filter keeps skills of the category only, and every skill of the category |
| Skills.Grouped | src/components/Skills.tsx:104-124 | the page's rows, one filtered group per category in turn; `Skills.GroupsPartition`, `Skills.PageShowsEverySkillOnce` and `Skills.GroupKeepsOrder` state that every skill is shown exactly once and each group keeps table order |
| Skills.InCategoryCons | src/components/Skills.tsx:123-124 | the filter works element by element from the front |
| Skills.GroupedCons | src/components/Skills.tsx:123-124 | as a multiset, grouping a list is grouping its head plus grouping its tail |
| Skills.GroupedSingleton | src/components/Skills.tsx:123-124 | with duplicate-free categories a single skill is shown once if its category is listed, else not at all |
| Skills.GroupsPartition | src/components/Skills.tsx:123-124 | the per-category groups together are a permutation of the skills |
| Skills.GroupedOfEmpty | src/components/Skills.tsx:123-124 | no skills give no rows |
| Skills.PageShowsEverySkillOnce | src/components/Skills.tsx:82-124 | grouping by the computed categories shows every skill exactly once |
| Skills.GroupKeepsOrder | src/components/Skills.tsx:123-124 | the filter distributes over concatenation, so each group keeps the table's relative order |
| GlitchText.Config | src/components/animations/GlitchText.tsx:24-28 | every glitch probability is strictly between 0 and 1 |
| GlitchText.StrongerIntensityGlitchesMore | src/components/animations/GlitchText.tsx:24-28 | probability, duration and offset strictly increase from low to medium to high |
| GlitchText.GlitchTick | src/components/animations/GlitchText.tsx:38-44 | a glitch starts exactly when the draw is below the probability, and the next round is scheduled within [interval, interval + 1000) |
| GlitchText.GlitchTickMonotone | src/components/animations/GlitchText.tsx:38-44 | on the same draw, a glitch at a weaker intensity is also one at every stronger intensity |
| GlitchText.GlitchCharsAreSymbols | src/components/animations/GlitchText.tsx:59 | the alphabet has 18 characters, none a letter or digit |
| GlitchText.GlitchChar | src/components/animations/GlitchText.tsx:63 | the picked index is in bounds, so the replacement is a member of the alphabet |
| GlitchText.GetGlitchText | src/components/animations/GlitchText.tsx:56-69 | the text is unchanged when not glitching; the length is kept; a position is replaced by its alphabet pick exactly when its draw is below 0.3 |
| GlitchText.UntouchedWhenDrawsHigh | src/components/animations/GlitchText.tsx:62 | with every draw at or above 0.3 the output equals the text |
| CyberBackground.Particle.constructor | src/components/cyber/CyberBackground.tsx:38-46 | a new particle sits at the given point with life = maxLife = 100, size in [1, 3) and speeds in [-1, 1) |
| CyberBackground.Particle.Update | src/components/cyber/CyberBackground.tsx:48-52 | the particle moves by its speed and loses exactly one unit of life; maxLife is kept |
| CyberBackground.Particle.Alpha | src/components/cyber/CyberBackground.tsx:55 | for a life in [0, maxLife) the draw alpha is in [0, 1) |
| CyberBackground.Fraction | src/components/cyber/CyberBackground.tsx:55 | `life / maxLife` is in [0, 1) for a life in [0, maxLife) |
| CyberBackground.Lives | src/components/cyber/CyberBackground.tsx:104-111 | the ghost view of a pool holds each particle's life at its position |
| CyberBackground.Decremented | src/components/cyber/CyberBackground.tsx:105 | each life is one less |
| CyberBackground.Survivors | src/components/cyber/CyberBackground.tsx:104-111 | the survivors are no more than the pool |
| CyberBackground.SurvivorsFromPool | src/components/cyber/CyberBackground.tsx:104-111 | every survivor is a particle of the pool; the pass creates none |
| CyberBackground.LivesOfSurvivors | src/components/cyber/CyberBackground.tsx:104-111 | the survivors' lives are exactly the decremented lives that stay positive, in order |
| CyberBackground.RisingGrowth | src/components/cyber/CyberBackground.tsx:97-111 | in a pool whose lives rise by position, lives k places apart differ by at least k |
| CyberBackground.FilterRising | src/components/cyber/CyberBackground.tsx:104-111 | removing particles from a list whose lives rise leaves lives that rise, none below the first |
| CyberBackground.FilterRisingBounded | src/components/cyber/CyberBackground.tsx:104-111 | decrementing lives in [1, 100] and keeping the positive ones leaves rising lives in [1, 99] |
| CyberBackground.StaggeredLives | src/components/cyber/CyberBackground.tsx:97-111 | the lives of a pool ordered oldest first rise and stay inside the pool's bounds |
| CyberBackground.PositionsOf | src/components/cyber/CyberBackground.tsx:104-111 | particles with different lives are different objects, so each has one position in the pool |
| CyberBackground.SurvivorsStep | src/components/cyber/CyberBackground.tsx:105-110 | visiting position i adds that particle to the survivors exactly when it is still alive |
| CyberBackground.SpliceStep | src/components/cyber/CyberBackground.tsx:108-110 | splicing the visited particle out exactly when it is dead leaves the survivors from that position on |
| CyberBackground.RisingWithinIsShort | src/components/cyber/CyberBackground.tsx:104-111 | strictly rising lives inside [lo, hi] number at most hi - lo + 1 |
| CyberBackground.GridStart | src/components/cyber/CyberBackground.tsx:78-86 | grid lines start at `offset % 50`, which is in [0, 50) and differs from the offset by a whole number of cells |
| CyberBackground.StaggeredPush | src/components/cyber/CyberBackground.tsx:97-101 | pushing a fresh particle onto a pool of lives in [1, 99] keeps the lives strictly rising |
| CyberBackground.SurvivorsStaggered | src/components/cyber/CyberBackground.tsx:104-111 | after a frame the survivors have lives in [1, 99], still strictly rising |
| CyberBackground.Scene.constructor | src/components/cyber/CyberBackground.tsx:25-66 | the pool starts empty at offset 0 |
| CyberBackground.Scene.PoolIsBounded | src/components/cyber/CyberBackground.tsx:104-111 | between frames the pool holds fewer than 100 particles |
| CyberBackground.Scene.MaybeSpawn | src/components/cyber/CyberBackground.tsx:97-101 | below the 0.1 chance exactly one fresh particle is appended at the drawn point; otherwise the pool is unchanged |
| CyberBackground.Scene.VisitParticle | src/components/cyber/CyberBackground.tsx:105-110 | one step of the backward loop: the particle is updated once and spliced out exactly when its life reaches 0 |
| CyberBackground.Scene.SweepBackward | src/components/cyber/CyberBackground.tsx:104-111 | the backward loop updates every particle exactly once (one unit of life less, one step along its speed), leaves exactly the survivors in order, and records each particle's drawn life |
| CyberBackground.Scene.UpdateParticles | src/components/cyber/CyberBackground.tsx:104-111 | the pool becomes the in-order survivors of the old pool; every old particle loses one unit of life and moves by its speed; the drawn lives are the decremented lives, each in [0, 100) |
| CyberBackground.Scene.SpawnAndUpdate | src/components/cyber/CyberBackground.tsx:97-111 | the new pool is the survivors of the old pool with the spawned particle (if any) appended, and the drawn lives are the decremented lives of that pool |
| CyberBackground.Scene.Frame | src/components/cyber/CyberBackground.tsx:69-111 | grid lines start at `offset % 50`; the offset grows by 0.5; the new pool is the survivors of the old pool plus the spawned particle, and the drawn lives are its decremented lives; the pool stays below 100 and every draw alpha is in [0, 1) |
| InteractiveBackground.Place | src/components/animations/InteractiveBackground.tsx:88-89 | `r·(extent − 100) + 50` lies in [50, extent − 50] on a canvas of at least 100 pixels |
| InteractiveBackground.Velocity | src/components/animations/InteractiveBackground.tsx:97-100 | `(r − 0.5)·3` is in [-1.5, 1.5) |
| InteractiveBackground.BackgroundObject | src/components/animations/InteractiveBackground.tsx:68-81 | a background object is a non-interactive kind on the canvas, with size in [20, 50), alpha in [0.3, 0.6) and no velocity |
| InteractiveBackground.CyberObjectAt | src/components/animations/InteractiveBackground.tsx:86-103 | the i-th interactive object has kind `cyberTypes[i]`, size 35 and alpha 1, lies 50 pixels inside the canvas, and moves at under 1.5 per axis |
| InteractiveBackground.Clamp | src/components/animations/InteractiveBackground.tsx:579-580 | `max(lo, min(hi, v))` lies in [lo, hi] and keeps values already inside |
| InteractiveBackground.IsInteractive | src/components/animations/InteractiveBackground.tsx:569 | the `includes(obj.type)` test; `InteractiveBackground.NoInteractivePrefix` and `InteractiveBackground.LayoutHasThreeTargets` state that exactly the three generated targets pass it |
| InteractiveBackground.Bounce | src/components/animations/InteractiveBackground.tsx:575-576 | the wall test on the moved position; `InteractiveBackground.Move` states that it flips a velocity exactly when the stepped position leaves [size, extent − size] |
| InteractiveBackground.Move | src/components/animations/InteractiveBackground.tsx:569-581 | the step keeps the object inside [size, extent − size] when the canvas is at least 2·size, and flips a velocity exactly when the stepped position leaves that range |
| InteractiveBackground.Respawn | src/components/animations/InteractiveBackground.tsx:591-599 | a respawned object is no longer exploding, lies 50 pixels inside the canvas and has a fresh velocity |
| InteractiveBackground.ExplosionBurst | src/components/animations/InteractiveBackground.tsx:110-127 | exactly 20 sparks at the point, with life 1, the given colour and size in [2, 4) |
| InteractiveBackground.HitBurst | src/components/animations/InteractiveBackground.tsx:675-688 | exactly 30 sparks at the object, with life 1, white on even and accent on odd positions, size in [1, 3) |
| InteractiveBackground.Volley | src/components/animations/InteractiveBackground.tsx:641-661 | exactly 3 lasers, each starting at the stored pointer with life 1 |
| InteractiveBackground.Age | src/components/animations/InteractiveBackground.tsx:517-520 | one step of the `updateParticles` callback; `InteractiveBackground.UpdateSparksIsFilter` and `InteractiveBackground.UpdateSparksBounded` state its effect on the list |
| InteractiveBackground.UpdateSparks | src/components/animations/InteractiveBackground.tsx:516-523 | the pass never grows the list and every survivor has positive life |
| InteractiveBackground.UpdateSparksIsFilter | src/components/animations/InteractiveBackground.tsx:516-523 | the pass keeps exactly the aged sparks whose life stays above 0, in order |
| InteractiveBackground.UpdateSparksBounded | src/components/animations/InteractiveBackground.tsx:516-523 | fading never raises a life |
| InteractiveBackground.SparkLifetime | src/components/animations/InteractiveBackground.tsx:520-521 | with exact arithmetic a fresh spark lives for 49 passes, with life 1 − 0.02·k after k passes |
| InteractiveBackground.Dim | src/components/animations/InteractiveBackground.tsx:526-528 | one step of the `updateLasers` callback; `InteractiveBackground.UpdateBeamsIsFilter`, `InteractiveBackground.UpdateBeamsFades` and `InteractiveBackground.BeamsGone` state its effect on the list |
| InteractiveBackground.UpdateBeams | src/components/animations/InteractiveBackground.tsx:525-530 | the pass never grows the list and every survivor has positive life |
| InteractiveBackground.UpdateBeamsIsFilter | src/components/animations/InteractiveBackground.tsx:525-530 | the pass keeps exactly the dimmed lasers whose life stays above 0, in order |
| InteractiveBackground.UpdateBeamsBounded | src/components/animations/InteractiveBackground.tsx:525-530 | dimming never raises a life |
| InteractiveBackground.LaserLifetime | src/components/animations/InteractiveBackground.tsx:527-528 | with exact arithmetic a fresh laser lives for 33 passes, with life 1 − 0.03·k after k passes |
| InteractiveBackground.UpdateBeamsFades | src/components/animations/InteractiveBackground.tsx:525-530 | one pass takes at least 0.03 off every surviving laser |
| InteractiveBackground.BeamsAfterFade | src/components/animations/InteractiveBackground.tsx:525-530 | after k passes every laser fired with life at most 1 has at most 1 − 0.03·k left |
| InteractiveBackground.UpdateBeamsClears | src/components/animations/InteractiveBackground.tsx:525-530 | lasers with at most 0.03 of life all go in the next pass |
| InteractiveBackground.BeamsGone | src/components/animations/InteractiveBackground.tsx:525-530 | 34 or more passes leave no laser, however many were fired |
| InteractiveBackground.InRange | src/components/animations/InteractiveBackground.tsx:666-670 | the hit-range test with the square root squared away; `InteractiveBackground.InRangeIsDistanceTest` states that it agrees with `distance < obj.size * 3` |
| InteractiveBackground.InRangeIsDistanceTest | src/components/animations/InteractiveBackground.tsx:666-670 | `distance < 3·size` holds exactly when the squared distance is below `9·size²` |
| InteractiveBackground.Hits | src/components/animations/InteractiveBackground.tsx:665-670 | an interactive object within range; `InteractiveBackground.Struck`, `InteractiveBackground.HitCountBelowInteractive` and `InteractiveBackground.ClickScoresAtMostThree` state its consequences |
| InteractiveBackground.Struck | src/components/animations/InteractiveBackground.tsx:664-671 | an object is marked exploding iff it already was or it is an interactive object within range of the stored pointer |
| InteractiveBackground.HitCount | src/components/animations/InteractiveBackground.tsx:664-672 | the number of hits is at most the number of objects |
| InteractiveBackground.InteractiveCount | src/components/animations/InteractiveBackground.tsx:665 | the number of interactive objects is at most the number of objects |
| InteractiveBackground.HitCountBelowInteractive | src/components/animations/InteractiveBackground.tsx:664-672 | only interactive objects can be hit |
| InteractiveBackground.NoInteractivePrefix | src/components/animations/InteractiveBackground.tsx:68-81 | the eight background objects hold no interactive kind |
| InteractiveBackground.LayoutHasThreeTargets | src/components/animations/InteractiveBackground.tsx:63-106 | the generated layout holds exactly three interactive objects |
| InteractiveBackground.ClickScoresAtMostThree | src/components/animations/InteractiveBackground.tsx:664-672 | one click raises the score by at most 3 |
| InteractiveBackground.Scene.constructor | src/components/animations/InteractiveBackground.tsx:63-108 | the scene starts with the generated layout, no sparks, no lasers and score 0 |
| InteractiveBackground.Scene.GenerateObjects | src/components/animations/InteractiveBackground.tsx:63-106 | exactly 11 objects: 8 background objects, then dataCore, energyOrb and holoShard of size 35 |
| InteractiveBackground.Scene.HandleMouseMove | src/components/animations/InteractiveBackground.tsx:694-700 | the stored pointer becomes the event point |
| InteractiveBackground.Scene.ResizeCanvas | src/components/animations/InteractiveBackground.tsx:55-58 | the canvas takes the window size and objects, sparks, lasers, pointer and score are kept; the next object pass clamps against the new size |
| InteractiveBackground.Scene.UpdateParticles | src/components/animations/InteractiveBackground.tsx:516-523 | the spark list becomes `UpdateSparks` of the old one |
| InteractiveBackground.Scene.UpdateLasers | src/components/animations/InteractiveBackground.tsx:525-530 | the laser list becomes `UpdateBeams` of the old one |
| InteractiveBackground.Scene.CreateExplosionParticles | src/components/animations/InteractiveBackground.tsx:110-130 | the 20-spark burst is appended after the existing sparks |
| InteractiveBackground.Scene.DrawObject | src/components/animations/InteractiveBackground.tsx:568-600 | only object i changes: it becomes `Drawn` of its old value, and the sparks grow by its `DrawBurst` |
| InteractiveBackground.Scene.PushHitBurst | src/components/animations/InteractiveBackground.tsx:675-688 | the 30-spark burst is appended after the existing sparks |
| InteractiveBackground.Scene.HandleClick | src/components/animations/InteractiveBackground.tsx:633-692 | three lasers are appended; exactly the in-range interactive objects around the stored pointer are marked; the score grows by the hit count; one 30-spark burst per hit object, in object order, is appended after the old sparks |
| InteractiveBackground.Scene.FireVolley | src/components/animations/InteractiveBackground.tsx:641-661 | the three spread-shot lasers are appended after the existing ones |
| InteractiveBackground.Scene.StrikeAt | src/components/animations/InteractiveBackground.tsx:664-689 | one object is marked exploding, scores one and appends its burst exactly when the stored pointer hits it; otherwise nothing changes |
| InteractiveBackground.Scene.StrikeObjects | src/components/animations/InteractiveBackground.tsx:664-690 | every object is struck in turn; the score grows by the hit count and the sparks by the bursts of the hit objects |
| InteractiveBackground.Bursts | src/components/animations/InteractiveBackground.tsx:664-690 | a click adds 30 sparks per hit object |
| InteractiveBackground.BurstsAreFresh | src/components/animations/InteractiveBackground.tsx:677-686 | every spark a click adds starts with life 1 |
| InteractiveBackground.BurstsStep | src/components/animations/InteractiveBackground.tsx:664-690 | one more object adds its burst exactly when it is hit |
| InteractiveBackground.HitCountStep | src/components/animations/InteractiveBackground.tsx:664-672 | one more object adds one to the hit count exactly when it is hit |
| InteractiveBackground.StruckKeepsLayout | src/components/animations/InteractiveBackground.tsx:670 | marking hits changes no object's kind or size, so the layout is kept |
| InteractiveBackground.Drawn | src/components/animations/InteractiveBackground.tsx:568-600 | a background object is left as it is; an interactive object is moved, keeps kind, size and alpha, and is never left exploding |
| InteractiveBackground.DrawBurst | src/components/animations/InteractiveBackground.tsx:588-590 | an exploding object adds exactly 20 sparks, any other none |
| InteractiveBackground.FrameBursts | src/components/animations/InteractiveBackground.tsx:551-563 | the sparks the object passes add, in object order |
| InteractiveBackground.FrameBurstsFresh | src/components/animations/InteractiveBackground.tsx:551-563 | with no exploding object the passes add nothing, and every spark they add starts with life 1 |
| InteractiveBackground.FrameBurstsStep | src/components/animations/InteractiveBackground.tsx:551-563 | one more object adds exactly its own burst |
| InteractiveBackground.Scene.DrawObjects | src/components/animations/InteractiveBackground.tsx:551-563 | every object becomes `Drawn` of its old value, and the sparks grow by `FrameBursts` of the old objects |
| InteractiveBackground.Scene.DrawStep | src/components/animations/InteractiveBackground.tsx:551-563 | drawing object i extends the drawn prefix by one object and its burst |
| InteractiveBackground.Scene.AnimateAsWritten | src/components/animations/InteractiveBackground.tsx:541-565 | a frame as written: sparks become `UpdateSparks` of the old ones plus the frame's bursts, every object is drawn, and the lasers are unchanged |
| InteractiveBackground.Scene.Animate | src/components/animations/InteractiveBackground.tsx:541-565 | a frame with `updateLasers` called: as `AnimateAsWritten`, and the lasers become `UpdateBeams` of the old ones |
| InteractiveBackground.Scene.ClickThenFramesAsWritten | src/components/animations/InteractiveBackground.tsx:541-565 | a click then 34 frames as written leaves the click's three lasers in the list, at full life |
| InteractiveBackground.Scene.ClickThenFrames | src/components/animations/InteractiveBackground.tsx:525-565 | a click then 34 frames with `updateLasers` leaves no laser |
| CyberCursor.ParticleCount | src/components/animations/CyberCursor.tsx:33 | 15 particles per move for 'matrix' and 5 for every other style |
| CyberCursor.MoteSize | src/components/animations/CyberCursor.tsx:42 | size 6 for 'hex' and 3 for every other style |
| CyberCursor.Speed | src/components/animations/CyberCursor.tsx:36 | speed in [2, 4) for 'quantum' and 1 otherwise |
| CyberCursor.Ring | src/components/animations/CyberCursor.tsx:32-46 | one move sheds exactly `ParticleCount` particles at the pointer, each with life 1, the style's size, and velocity along its heading at the style's speed |
| CyberCursor.Drift | src/components/animations/CyberCursor.tsx:65-67 | one step of the filter callback; `CyberCursor.UpdateMotesIsFilter`, `CyberCursor.UpdateMotesBounded` and `CyberCursor.UpdateMotesAllOrNothing` state its effect on the list |
| CyberCursor.UpdateMotes | src/components/animations/CyberCursor.tsx:64-101 | the pass never grows the list and every survivor has positive life |
| CyberCursor.UpdateMotesIsFilter | src/components/animations/CyberCursor.tsx:64-101 | the pass keeps exactly the drifted particles whose life stays above 0, in order |
| CyberCursor.UpdateMotesBounded | src/components/animations/CyberCursor.tsx:64-101 | fading never raises a life |
| CyberCursor.UpdateMotesAllOrNothing | src/components/animations/CyberCursor.tsx:64-101 | particles of equal life are kept together or dropped together |
| CyberCursor.MoteFill | src/components/animations/CyberCursor.tsx:92-98 | the `fill()` colour: one exactly when the style is not 'matrix', with the primary colour's channels and the particle's life as opacity; matrix particles are drawn as green text, which is not modelled |
| CyberCursor.ThemeFillChannels | src/components/animations/CyberCursor.tsx:93-95 | for every built-in theme the primary colour yields three channels in [0, 255] |
| CyberCursor.Trail.constructor | src/components/animations/CyberCursor.tsx:26-46 | the trail starts empty with the pointer at the origin |
| CyberCursor.Trail.HandleMouseMove | src/components/animations/CyberCursor.tsx:26-29 | the pointer becomes the event point and the new ring is appended after the old particles |
| CyberCursor.Trail.AddParticles | src/components/animations/CyberCursor.tsx:32-46 | the particle list is the old one followed by `Ring` at the pointer |
| CyberCursor.Trail.Animate | src/components/animations/CyberCursor.tsx:64-101 | the list becomes `UpdateMotes` of the old one and each survivor gets its `MoteFill` |
| ParticleField.ParticleCount | src/components/animations/ParticleField.tsx:57 | the count is min(floor(w·h/15000), 100), so never more than 100 |
| ParticleField.CountExamples | src/components/animations/ParticleField.tsx:57 | a 1920×1080 window gets 100 particles and a 1280×720 one gets 61 |
| ParticleField.CountMonotone | src/components/animations/ParticleField.tsx:57 | a larger window never gets fewer particles |
| ParticleField.NewDot | src/components/animations/ParticleField.tsx:61-68 | a new particle lies on the canvas, with speeds in [-0.25, 0.25) and sizes in [1, 3) |
| ParticleField.Wrap | src/components/animations/ParticleField.tsx:87-90 | after the wrap checks the coordinate is in [0, extent]: unchanged when already inside, extent when below 0, 0 when beyond |
| ParticleField.Drift | src/components/animations/ParticleField.tsx:83-90 | after the move and wrap the particle is on the canvas whatever its position before |
| ParticleField.Proximity | src/components/animations/ParticleField.tsx:98-103 | the size is the original size at 100 pixels or more, lies in (original, 2·original] nearer in, and is twice the original at distance 0 |
| ParticleField.ProximityDecreasing | src/components/animations/ParticleField.tsx:98-103 | the size never grows with distance, and strictly shrinks within range |
| ParticleField.Advance | src/components/animations/ParticleField.tsx:83-103 | one frame keeps the particle on the canvas with a size between its original size and twice that |
| ParticleField.AlphaByte | src/components/animations/ParticleField.tsx:121 | floor((1 − d/100)·255) is in [0, 255] and is 255 at distance 0 |
| ParticleField.AlphaByteDecreasing | src/components/animations/ParticleField.tsx:121 | longer connections are never more opaque |
| ParticleField.SuffixedColor | src/components/animations/ParticleField.tsx:121 | a well-formed colour followed by two hex digits is '#' and eight hex digits |
| ParticleField.Stroke | src/components/animations/ParticleField.tsx:117-121 | the stroke is the primary colour followed by two hex digits that read back as the alpha byte; a well-formed colour gives 8 hex digits after '#' |
| ParticleField.Field.Width | src/components/animations/ParticleField.tsx:55 | the logical width is the canvas width divided by the pixel ratio |
| ParticleField.Field.Height | src/components/animations/ParticleField.tsx:56 | the logical height is the canvas height divided by the pixel ratio |
| ParticleField.Field.constructor | src/components/animations/ParticleField.tsx:29-42 | the field starts with the given pixel ratio and no particles |
| ParticleField.Field.SetCanvasSize | src/components/animations/ParticleField.tsx:29-42 | the canvas becomes floor(size·ratio) and every resize re-initialises the particle list |
| ParticleField.Field.InitParticles | src/components/animations/ParticleField.tsx:54-70 | the list is replaced by exactly `ParticleCount` new particles |
| ParticleField.Field.Animate | src/components/animations/ParticleField.tsx:81-103 | every particle is advanced once, in place, and the count is kept |
| CyberGrid.Rem | src/components/animations/CyberGrid.tsx:46 | JavaScript's `% 50` on a non-negative value lands in [0, 50) |
| CyberGrid.NextOffset | src/components/animations/CyberGrid.tsx:46 | the offset stays in [0, 50) |
| CyberGrid.OffsetAfter | src/components/animations/CyberGrid.tsx:46 | the offset stays in [0, 50) after any number of frames |
| CyberGrid.OffsetCycle | src/components/animations/CyberGrid.tsx:26-46 | after k frames the offset is 0.5·(k mod 100) |
| CyberGrid.OffsetPeriod | src/components/animations/CyberGrid.tsx:26-46 | the offset repeats every 100 frames |
| CyberGrid.OffsetReturns | src/components/animations/CyberGrid.tsx:26-46 | after any whole number of hundred-frame rounds the offset is back at 0 |
| CyberGrid.Alpha | src/components/animations/CyberGrid.tsx:51 | max(0.1, 1 − progress) is at least 0.1 and at most 1 for a non-negative progress |
| CyberGrid.AlphaDecreasing | src/components/animations/CyberGrid.tsx:51 | lines further out are never brighter |
| CyberGrid.ThemeGridColors | src/components/animations/CyberGrid.tsx:32-40 | for every built-in theme both grid colours parse to three channels in [0, 255] |
| CyberGrid.Ladder | src/components/animations/CyberGrid.tsx:49 | the loop visits start, start + 50, … exactly while below the limit |
| CyberGrid.Faded | src/components/animations/CyberGrid.tsx:50-51 | each line keeps its position and gets the alpha of its progress, within [0.1, 1] |
| CyberGrid.Grid.constructor | src/components/animations/CyberGrid.tsx:28 | the offset starts at 0 |
| CyberGrid.Grid.Animate | src/components/animations/CyberGrid.tsx:42-104 | with `maxRadius` the distance from the corner to the centre, the offset advances; rows, columns and circles sit at offset + 50·k below their limits, with alpha in [0.1, 1] by their own progress formulas |
| ProfessionalBackground.NewElement | src/components/professional/ProfessionalBackground.tsx:36-43 | a new element lies on the canvas with size in [1, 5), speed and opacity in [0.1, 0.6), and direction 1 exactly when its draw exceeds 0.5, else −1 |
| ProfessionalBackground.Fall | src/components/professional/ProfessionalBackground.tsx:67-74 | y moves by speed·direction, then resets to 0 past the bottom or to the height past the top; it always ends in [0, height] |
| ProfessionalBackground.Push | src/components/professional/ProfessionalBackground.tsx:77-85 | beyond 100 pixels the element is untouched; otherwise it moves half a pixel along the pointer direction, away from the pointer |
| ProfessionalBackground.PushMovesAway | src/components/professional/ProfessionalBackground.tsx:77-85 | the push raises the distance to the pointer from d to exactly d + 0.5 |
| ProfessionalBackground.StripHash | src/components/professional/ProfessionalBackground.tsx:58 | the first '#' is removed; a string without one is unchanged |
| ProfessionalBackground.AccentRgb | src/components/professional/ProfessionalBackground.tsx:58-61 | the accent's channels read from the stripped string; `ProfessionalBackground.AccentRgbAgreesWithParseColor` and `ProfessionalBackground.ThemeAccentChannels` state that they equal `Hex.ParseColor` and are bytes for every built-in theme |
| ProfessionalBackground.AccentRgbAgreesWithParseColor | src/components/professional/ProfessionalBackground.tsx:58-61 | for a '#'-prefixed colour, reading from the stripped string gives the same channels as the `slice(1, 3)` parser |
| ProfessionalBackground.ThemeAccentChannels | src/components/professional/ProfessionalBackground.tsx:58-61 | every built-in accent yields three channels in [0, 255] |
| ProfessionalBackground.Backdrop.constructor | src/components/professional/ProfessionalBackground.tsx:28-46 | mounting sizes the canvas and creates the elements |
| ProfessionalBackground.Backdrop.CreateElements | src/components/professional/ProfessionalBackground.tsx:33-46 | the list is replaced by exactly 50 new elements |
| ProfessionalBackground.Backdrop.ResizeCanvas | src/components/professional/ProfessionalBackground.tsx:28-31 | the canvas follows the window and the elements are kept |
| ProfessionalBackground.Backdrop.HandleMouseMove | src/components/professional/ProfessionalBackground.tsx:91-96 | the stored pointer becomes the event point |
| ProfessionalBackground.Backdrop.Draw | src/components/professional/ProfessionalBackground.tsx:53-86 | each element falls and is then pushed; its direction never changes |
| Hex.DigitValue | src/components/animations/CyberGrid.tsx:33-35 | a hex digit's value is below 16 |
| Hex.ValueOf | src/components/animations/CyberGrid.tsx:33-35 | n hex digits have a value below 16ⁿ |
| Hex.HexRun | src/components/animations/CyberGrid.tsx:33-35 | the leading run of hex digits is maximal |
| Hex.ParseInt | src/components/animations/CyberGrid.tsx:33-35 | `parseInt(s, 16)` is NaN exactly when s does not start with a hex digit, and is the value of s when s is all hex |
| Hex.Slice | src/components/animations/CyberGrid.tsx:33-35 | `slice(begin, end)` has the clipped length and the characters of s from begin on |
| Hex.Byte | src/components/animations/CyberGrid.tsx:33-35 | two hex digits make a value in [0, 255] |
| Hex.ParseColor | src/components/animations/CyberGrid.tsx:32-37 | `parseInt` of the slices 1–3, 3–5 and 5–7; `Hex.ParseColorChannels` and `Hex.ParseColorIgnoresTail` state that a '#rrggbb' colour gives its three bytes and that later characters are ignored |
| Hex.ParseColorChannels | src/components/animations/CyberGrid.tsx:32-37 | a '#rrggbb' colour yields three defined channels in [0, 255] |
| Hex.ChannelValue | src/components/animations/CyberGrid.tsx:33-35 | parsing a two-digit slice gives the byte of those two digits |
| Hex.ParseColorIgnoresTail | src/components/animations/CyberGrid.tsx:32-37 | characters after index 6 do not affect the parsed colour |
| Hex.AllHexAppend | src/components/animations/ParticleField.tsx:121 | joining two hex strings gives a hex string |
| Hex.DigitChar | src/components/animations/ParticleField.tsx:121 | the digit character reads back as its value |
| Hex.ToHexString | src/components/animations/ParticleField.tsx:121 | `toString(16)` gives hex digits that read back as n, with one digit below 16 and two below 256 |
| Hex.PadStart | src/components/animations/ParticleField.tsx:121 | `padStart` reaches the requested width with the fill character in front and keeps the string as its tail |
| Hex.SixDigitColor | src/components/animations/CyberGrid.tsx:32-37 | '#' followed by six hex digits is a well-formed colour |
| Hex.PaddedDigit | src/components/animations/ParticleField.tsx:121 | a zero-padded single digit is two hex digits reading back as that digit |
| Hex.AlphaSuffix | src/components/animations/ParticleField.tsx:121 | `toString(16).padStart(2, '0')`; `Hex.AlphaSuffixRoundTrip` states that every byte gives two hex digits that parse back to it |
| Hex.AlphaSuffixRoundTrip | src/components/animations/ParticleField.tsx:121 | a byte in [0, 255] is written as exactly two hex digits that parse back to it |
| Draws.Scale | src/components/games/TargetGame.tsx:28-30 | a draw times a non-negative span lies in [0, span), or is 0 for an empty span |
| Draws.PickIndex | src/components/animations/GlitchText.tsx:63 | `floor(r·n)` for a draw r is a valid index below n |
| Seqs.Filter | src/components/games/TargetGame.tsx:49 | the filter keeps exactly the elements that satisfy the predicate, and never grows the list |
| Seqs.Map | src/components/animations/InteractiveBackground.tsx:517-522 | the map keeps the length and applies the function at each position |
| Seqs.FilterAppend | src/components/games/TargetGame.tsx:49 | filtering distributes over concatenation |
| Seqs.FilterKeepsAll | src/components/games/TargetGame.tsx:49 | a filter that rejects nothing returns the list |
| Seqs.FilterKeepsIncreasing | src/components/games/TargetGame.tsx:49 | filtering keeps a strictly increasing key strictly increasing |

## Left out

- Canvas drawing is not modelled: every `draw*` helper, `arc`, `stroke`, gradients, `ctx.scale`, and the markup of the components. These are calls into a browser API, and the model returns the values they would be given.
- Scheduling is not modelled: `requestAnimationFrame`, `setInterval`, `setTimeout` and listener registration and teardown. Each callback is modelled as one call of the corresponding method, so neither the timing nor the interleaving of callbacks is captured.
- `Math.random` is a parameter. Its distribution is not modelled.
- Trigonometry and square roots are not computed. Launch angles, laser spread, `atan2` and distances are parameters, tied to the coordinates where the property needs it.
- Floating-point rounding is not modelled. Lifetimes and positions are exact reals, so the exact frame of death of a 0.02 or 0.03 decrement in IEEE arithmetic is not captured.
- Hex.ParseInt: models only the leading run of hex digits. Leading whitespace, a sign or a `0x` prefix are not handled, because the colours passed to it never contain them.
- CursorContext.Lookup: `styles` is a finite map with four keys. The JavaScript prototype keys (such as 'constructor') that would pass the truthiness check are not modelled.
- TargetGame.NewTarget: positions on a container narrower than 50 pixels are not bounded, because the source then draws negative coordinates.
- CyberBackground: the particle pool is a `seq` of `Particle` references in a class. `splice` is modelled as removal from that sequence.
- CyberBackground.Scene.Frame: returns the lives used for the draw alpha and does not produce the `rgba(...)` string. The position step of each particle is stated by `Scene.UpdateParticles` and `Scene.SweepBackward`, not repeated in the frame's contract. The offset is advanced after the particle pass rather than before it, which leaves the same state.
- InteractiveBackground: rotation, hover, pulse phase, `explosionProgress` and the draw styles are not modelled. The two object passes of `animate` are one pass in list order, which is the same order because the layout puts the background objects first.
- InteractiveBackground: `drawParticles` is not modelled. It is the particle fill colour with an alpha suffix, and is drawing only.
- InteractiveBackground, CyberCursor, ParticleField and ProfessionalBackground: records the source mutates through `forEach` or `filter` are datatypes in `seq` fields that the methods reassign, so aliasing between them is not captured.
- ParticleField: the `handleMouseMove` coordinate mapping is not modelled; the pointer is a parameter of `Animate`. The pairwise connection loop is not modelled beyond the stroke colour of one pair.
- CyberGrid.Grid.Animate: the radial lines are not modelled (trigonometry only). The canvas size is a real, so no integer canvas size is modelled.
- GlitchText: the `setIsGlitching` timers and the framer-motion offsets are not modelled. `GlitchTick` models one round of the loop.
- Theme and window colour wiring between components is not modelled. Each effect takes its colours as parameters, and lemmas tie those to the built-in themes.
- GlitchEffect, CyberText and CyberWaves are not part of this model: they are timer or trigonometry animations only.
- Route tables, content pages, styling controls and the Tailwind configuration are not part of this model.
- ThemeContext.ThemeProvider.Value: is the value the provider exposes at its next render. The toggles and `setCursorStyle` write into the table in place and then set the index to its unchanged value (src/context/ThemeContext.tsx:167, 172, 177). React skips a re-render for an unchanged state, so consumers see the new flags only after some other re-render, such as the next `cycleTheme`. Render timing is not modelled.
- GlitchText.GetGlitchText: iterates over Dafny characters, while `text.length` and the index loop count UTF-16 code units. The two agree for the ASCII texts the site passes in; surrogate pairs are not modelled.
- CyberCursor, CyberBackground, CyberGrid and InteractiveBackground: the effect cleanups (src/components/animations/CyberCursor.tsx:134-137, src/components/cyber/CyberBackground.tsx:118-121, src/components/animations/CyberGrid.tsx:111-114, src/components/animations/InteractiveBackground.tsx:706-711) remove the listeners but never cancel the animation frame, and the effects re-run whenever `colors` changes. Each colour change therefore leaves one more loop running; in InteractiveBackground two loops then call `updateParticles`, so sparks age twice per displayed frame. Scheduling is not modelled, so this leak is not captured.
- CyberCursor.MoteFill: gives the `fill()` colour only. Matrix particles are drawn with `fillText` in `rgba(0, 255, 0, life)` and a random katakana character (src/components/animations/CyberCursor.tsx:83-86); text drawing is not modelled.
- InteractiveBackground.Scene.ResizeCanvas: only sets the size. The objects are not moved at the resize itself; the next object pass clamps the moving ones, as in the source.

## Findings

| source | as written | input that shows it | evidently intended | confidence | as-written member | corrected member |
|---|---|---|---|---|---|---|
| src/components/animations/InteractiveBackground.tsx:541-565 | `animate` calls `updateParticles` but never `updateLasers` (defined at 525-530), so lasers never fade and `lasersRef` grows by three per click without bound | one click followed by 34 frames: the click's three lasers are still in the list with life 1 | `animate` also calls `updateLasers`, so every laser is gone 34 frames after it is fired | high; not executed | InteractiveBackground.Scene.AnimateAsWritten, InteractiveBackground.Scene.ClickThenFramesAsWritten | InteractiveBackground.Scene.Animate, InteractiveBackground.BeamsGone, InteractiveBackground.Scene.ClickThenFrames |
